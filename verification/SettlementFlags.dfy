/**
 Settlement flags: a packed bit field that replaces two older record layouts, which are migrated
 lazily the first time an id is read.
 */
module SettlementFlags {

  // Bit 0 says that a settlement was executed, bit 1 that its event was emitted.

  datatype LegacyData = LegacyData(executed: bool, eventEmitted: bool)

  /** The three layouts an id can be stored in: packed, combined, or two scattered flags. */
  datatype Store = Store(
    packed: map<nat, bv32>,
    combined: map<nat, LegacyData>,
    hashes: map<nat, bool>,
    emitted: map<nat, bool>)

  predicate IsExecuted(flags: bv32) {
    flags & 1 != 0
  }

  predicate IsEmitted(flags: bv32) {
    flags & 2 != 0
  }

  function Pack(executed: bool, eventEmitted: bool): bv32 {
    (if executed then 1 else 0) | (if eventEmitted then 2 else 0)
  }

  function Flag(flags: map<nat, bool>, id: nat): bool {
    id in flags && flags[id]
  }

  /** The two booleans the stored records of an id stand for. */
  function Meaning(s: Store, id: nat): LegacyData {
    if id in s.packed then LegacyData(IsExecuted(s.packed[id]), IsEmitted(s.packed[id]))
    else if id in s.combined then s.combined[id]
    else LegacyData(Flag(s.hashes, id), Flag(s.emitted, id))
  }

  class SettlementStore {
    var packed: map<nat, bv32>
    var combined: map<nat, LegacyData>
    var hashes: map<nat, bool>
    var emitted: map<nat, bool>

    function Snapshot(): Store
      reads this
    {
      Store(packed, combined, hashes, emitted)
    }

    constructor (s: Store)
      ensures Snapshot() == s
    {
      packed, combined, hashes, emitted := s.packed, s.combined, s.hashes, s.emitted;
    }

    method LoadOrMigrate(id: nat) returns (flags: bv32)
      modifies this
      ensures (Snapshot(), flags) == Load(old(Snapshot()), id)
    {
      if id in packed {
        return packed[id];
      }
      if id in combined {
        var legacy := combined[id];
        flags := 0;
        if legacy.executed {
          flags := flags | 1;
        }
        if legacy.eventEmitted {
          flags := flags | 2;
        }
        packed := packed[id := flags];
        combined := combined - {id};
        return;
      }
      var executed := if id in hashes then hashes[id] else false;
      var eventEmitted := if id in emitted then emitted[id] else false;
      flags := 0;
      if executed {
        flags := flags | 1;
      }
      if eventEmitted {
        flags := flags | 2;
      }
      packed := packed[id := flags];
      hashes := hashes - {id};
      emitted := emitted - {id};
    }

    method HasSettlementHash(id: nat) returns (executed: bool)
      modifies this
      ensures executed == Meaning(old(Snapshot()), id).executed
      ensures Snapshot() == Load(old(Snapshot()), id).0
    {
      LoadMeaning(Snapshot(), id);
      var flags := LoadOrMigrate(id);
      executed := flags & 1 != 0;
    }

    method HasSettlementEventEmitted(id: nat) returns (eventEmitted: bool)
      modifies this
      ensures eventEmitted == Meaning(old(Snapshot()), id).eventEmitted
      ensures Snapshot() == Load(old(Snapshot()), id).0
    {
      LoadMeaning(Snapshot(), id);
      var flags := LoadOrMigrate(id);
      eventEmitted := flags & 2 != 0;
    }

    method SetSettlementHash(id: nat)
      modifies this
      ensures Snapshot() == RaiseExecuted(old(Snapshot()), id)
    {
      var flags := LoadOrMigrate(id);
      if flags & 1 != 0 {
        return;
      }
      flags := flags | 1;
      packed := packed[id := flags];
    }

    method SetSettlementEventEmitted(id: nat)
      modifies this
      ensures Snapshot() == RaiseEmitted(old(Snapshot()), id)
    {
      var flags := LoadOrMigrate(id);
      if flags & 2 != 0 {
        return;
      }
      flags := flags | 2;
      packed := packed[id := flags];
    }
  }

  // ----- specification -----

  function Load(s: Store, id: nat): (Store, bv32) {
    if id in s.packed then
      (s, s.packed[id])
    else if id in s.combined then
      var flags := Pack(s.combined[id].executed, s.combined[id].eventEmitted);
      (s.(packed := s.packed[id := flags], combined := s.combined - {id}), flags)
    else
      var flags := Pack(Flag(s.hashes, id), Flag(s.emitted, id));
      (s.(packed := s.packed[id := flags], hashes := s.hashes - {id}, emitted := s.emitted - {id}), flags)
  }

  function RaiseExecuted(s: Store, id: nat): Store {
    var (s', flags) := Load(s, id);
    if flags & 1 != 0 then s' else s'.(packed := s'.packed[id := flags | 1])
  }

  function RaiseEmitted(s: Store, id: nat): Store {
    var (s', flags) := Load(s, id);
    if flags & 2 != 0 then s' else s'.(packed := s'.packed[id := flags | 2])
  }

  lemma PackLaws(executed: bool, eventEmitted: bool)
    ensures IsExecuted(Pack(executed, eventEmitted)) == executed
    ensures IsEmitted(Pack(executed, eventEmitted)) == eventEmitted
  {
  }

  lemma ExecutedBit(flags: bv32)
    ensures (flags | 1) & 1 != 0
    ensures (flags | 1) & 2 == flags & 2
  {
  }

  lemma EmittedBit(flags: bv32)
    ensures (flags | 2) & 2 != 0
    ensures (flags | 2) & 1 == flags & 1
  {
  }

  /** The packed layout: bit 0 is the execution, bit 1 the event. */
  lemma PackedLayout(s: Store, id: nat)
    requires id !in s.packed
    ensures var d := Meaning(s, id);
            Load(s, id).1 == (if d.executed then 1 else 0) + (if d.eventEmitted then 2 else 0)
    ensures Meaning(s.(packed := s.packed[id := 1]), id) == LegacyData(true, false)
    ensures Meaning(s.(packed := s.packed[id := 2]), id) == LegacyData(false, true)
    ensures id in s.combined ==> Meaning(s, id) == s.combined[id]
    ensures id !in s.combined ==>
              && (Meaning(s, id).executed <==> id in s.hashes && s.hashes[id])
              && (Meaning(s, id).eventEmitted <==> id in s.emitted && s.emitted[id])
  {
  }

  /** The first read of an id moves it: what it was read from is gone, and every other record stays. */
  lemma LoadMoves(s: Store, id: nat)
    ensures var s' := Load(s, id).0;
            && s'.packed == s.packed[id := Load(s, id).1]
            && s'.combined == (if id in s.packed then s.combined else s.combined - {id})
            && (id in s.packed || id in s.combined ==> s'.hashes == s.hashes && s'.emitted == s.emitted)
            && (id !in s.packed && id !in s.combined ==>
                  s'.hashes == s.hashes - {id} && s'.emitted == s.emitted - {id})
  {
  }

  /** A read may rewrite the records but never changes what they mean, for any id. */
  lemma LoadMeaning(s: Store, id: nat)
    ensures var (s', flags) := Load(s, id);
            && (forall other :: Meaning(s', other) == Meaning(s, other))
            && LegacyData(IsExecuted(flags), IsEmitted(flags)) == Meaning(s, id)
            && id in s'.packed && s'.packed[id] == flags
  {
    if id in s.combined {
      PackLaws(s.combined[id].executed, s.combined[id].eventEmitted);
    }
    PackLaws(Flag(s.hashes, id), Flag(s.emitted, id));
  }

  /** A set raises its own flag of its own id and nothing else. */
  lemma SetMeaning(s: Store, id: nat, other: nat)
    ensures Meaning(RaiseExecuted(s, id), other)
         == if other == id then Meaning(s, id).(executed := true) else Meaning(s, other)
    ensures Meaning(RaiseEmitted(s, id), other)
         == if other == id then Meaning(s, id).(eventEmitted := true) else Meaning(s, other)
  {
    LoadMeaning(s, id);
    ExecutedBit(Load(s, id).1);
    EmittedBit(Load(s, id).1);
  }

  // ----- runs -----

  datatype Step = Read(id: nat) | SetExecuted(id: nat) | SetEmitted(id: nat)

  function Apply(s: Store, step: Step): Store {
    match step
    case Read(id) => Load(s, id).0
    case SetExecuted(id) => RaiseExecuted(s, id)
    case SetEmitted(id) => RaiseEmitted(s, id)
  }

  function Run(s: Store, steps: seq<Step>): Store {
    if steps == [] then s else Apply(Run(s, steps[..|steps| - 1]), steps[|steps| - 1])
  }

  /**
   Whatever the mix of layouts and however reads and sets interleave, the store behaves as two
   booleans per id that are raised by their own set and never fall back.
   */
  lemma {:induction false} RefinesTwoBooleans(s: Store, steps: seq<Step>, id: nat)
    ensures Meaning(Run(s, steps), id).executed <==> Meaning(s, id).executed || SetExecuted(id) in steps
    ensures Meaning(Run(s, steps), id).eventEmitted <==> Meaning(s, id).eventEmitted || SetEmitted(id) in steps
  {
    if steps != [] {
      var front, step := steps[..|steps| - 1], steps[|steps| - 1];
      assert steps == front + [step];
      RefinesTwoBooleans(s, front, id);
      var before := Run(s, front);
      match step {
        case Read(other) => LoadMeaning(before, other);
        case SetExecuted(other) => SetMeaning(before, other, id);
        case SetEmitted(other) => SetMeaning(before, other, id);
      }
    }
  }
}
