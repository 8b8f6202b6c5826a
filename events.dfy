/**
 * Which filesystem notifications make pacz restart its command
 * (main.go, lines 103-106).
 *
 * A notification carries the affected path and an operation mask in the
 * layout of the fsnotify library: one bit each for create, write, remove,
 * rename and permission change. Matching a path against the filter belongs
 * to the regular-expression engine, which is not modelled: `matches` stands
 * for it.
 */
module Events {

  /** The operation mask of a notification. */
  type Op = bv32

  const Create: Op := 1
  const Write: Op := 2
  const Remove: Op := 4
  const Rename: Op := 8
  const Chmod: Op := 16

  datatype Event = Event(name: string, op: Op)

  /** The test the dispatcher applies to each notification. */
  predicate Qualifies<R>(matches: (R, string) -> bool, filter: R, e: Event)
  {
    matches(filter, e.name) &&
    (e.op & Create == Create || e.op & Remove == Remove || e.op & Write == Write)
  }

  // ---------------------------------------------------------------------------
  // The mask read as a set of operation kinds

  datatype OpKind = Created | Written | Removed | Renamed | Chmodded

  function Bit(k: OpKind): Op
  {
    match k
    case Created => Create
    case Written => Write
    case Removed => Remove
    case Renamed => Rename
    case Chmodded => Chmod
  }

  /** The kinds whose bit is set in `op`; bits outside the five are ignored. */
  function Kinds(op: Op): (ks: set<OpKind>)
    ensures forall k :: k in ks <==> op & Bit(k) != 0
  {
    (if op & Create != 0 then {Created} else {}) +
    (if op & Write != 0 then {Written} else {}) +
    (if op & Remove != 0 then {Removed} else {}) +
    (if op & Rename != 0 then {Renamed} else {}) +
    (if op & Chmod != 0 then {Chmodded} else {})
  }

  /** The mask with exactly the bits of the given kinds. */
  function Mask(ks: set<OpKind>): (op: Op)
    ensures op & 0xFFFF_FFE0 == 0
  {
    (if Created in ks then Create else 0) |
    (if Written in ks then Write else 0) |
    (if Removed in ks then Remove else 0) |
    (if Renamed in ks then Rename else 0) |
    (if Chmodded in ks then Chmod else 0)
  }

  /** Reading back a mask built from a set of kinds gives that set. */
  lemma KindsOfMask(ks: set<OpKind>)
    ensures Kinds(Mask(ks)) == ks
  {
    var op := Mask(ks);
    forall k ensures k in Kinds(op) <==> k in ks {
      assert op & Bit(k) != 0 <==> k in ks;
    }
  }

  /** Building a mask from the kinds of `op` keeps exactly its five low bits. */
  lemma MaskOfKinds(op: Op)
    ensures Mask(Kinds(op)) == op & 31
  {
  }

  /**
   * A notification qualifies exactly when its path matches the filter and
   * it reports a create, a write or a remove.
   */
  lemma QualifiesIff<R>(matches: (R, string) -> bool, filter: R, e: Event)
    ensures Qualifies(matches, filter, e) <==>
      matches(filter, e.name) && Kinds(e.op) * {Created, Written, Removed} != {}
  {
    var ks := Kinds(e.op);
    assert e.op & Create == Create <==> e.op & Create != 0;
    assert e.op & Write == Write <==> e.op & Write != 0;
    assert e.op & Remove == Remove <==> e.op & Remove != 0;
    assert Created in ks <==> e.op & Bit(Created) != 0;
    assert Written in ks <==> e.op & Bit(Written) != 0;
    assert Removed in ks <==> e.op & Bit(Removed) != 0;
    assert ks * {Created, Written, Removed} != {} <==> Created in ks || Written in ks || Removed in ks;
  }

  /** A rename or a permission change alone never qualifies, whatever the path. */
  lemma RenameAndChmodIgnored<R>(matches: (R, string) -> bool, filter: R, e: Event)
    requires Kinds(e.op) <= {Renamed, Chmodded}
    ensures !Qualifies(matches, filter, e)
  {
    QualifiesIff(matches, filter, e);
  }

  /** With a filter that matches every path, only the operation kinds decide. */
  lemma MatchAllFilter<R>(matches: (R, string) -> bool, filter: R, e: Event)
    requires forall path :: matches(filter, path)
    ensures Qualifies(matches, filter, e) <==> Kinds(e.op) * {Created, Written, Removed} != {}
  {
    QualifiesIff(matches, filter, e);
  }
}
