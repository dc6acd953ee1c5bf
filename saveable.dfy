/** The checkpoint cell `SaveableData<T>`: a live `current` value and a committed
    `saved` value, with `save` (commit) and `restore` (roll back). */
module Saveable {
  import opened Outcomes

  /** The abstract state of a checkpoint cell. */
  datatype CheckpointState<T> = CheckpointState(current: T, saved: T)

  /** What can happen to a cell: `save`, `restore`, or a write of a new live value
      by anything else (an activity proposal, say). */
  datatype Op<T> = SaveOp | RestoreOp | Overwrite(value: T)

  /** The effect of one operation on a cell. */
  function Step<T>(s: CheckpointState<T>, op: Op<T>): CheckpointState<T>
  {
    match op
    case SaveOp => CheckpointState(s.current, s.current)
    case RestoreOp => CheckpointState(s.saved, s.saved)
    case Overwrite(v) => CheckpointState(v, s.saved)
  }

  /** The effect of a sequence of operations, applied first to last. */
  function Run<T>(s: CheckpointState<T>, ops: seq<Op<T>>): CheckpointState<T>
  {
    if ops == [] then s else Step(Run(s, ops[..|ops| - 1]), ops[|ops| - 1])
  }

  /** `save` twice is `save` once; so is `restore`; and `restore` straight after
      `save` changes nothing. */
  lemma SaveRestoreLaws<T>(s: CheckpointState<T>)
    ensures Step(Step(s, SaveOp), SaveOp) == Step(s, SaveOp)
    ensures Step(Step(s, RestoreOp), RestoreOp) == Step(s, RestoreOp)
    ensures Step(Step(s, SaveOp), RestoreOp) == Step(s, SaveOp)
    ensures Step(s, SaveOp).current == s.current && Step(s, RestoreOp).saved == s.saved
  {
  }

  /** Only `save` writes the committed value. */
  lemma {:induction false} OnlySaveWritesSaved<T>(s: CheckpointState<T>, ops: seq<Op<T>>)
    requires forall i | 0 <= i < |ops| :: !ops[i].SaveOp?
    ensures Run(s, ops).saved == s.saved
  {
    if ops != [] {
      OnlySaveWritesSaved(s, ops[..|ops| - 1]);
    }
  }

  /** Whatever happens after a `save` other than another `save`, a `restore` brings the
      live value back to what it was at that `save`. */
  lemma RestoreReturnsToLastSave<T>(s: CheckpointState<T>, ops: seq<Op<T>>)
    requires forall i | 0 <= i < |ops| :: !ops[i].SaveOp?
    ensures Run(s, [SaveOp] + ops + [RestoreOp]) == CheckpointState(s.current, s.current)
  {
    var all := [SaveOp] + ops + [RestoreOp];
    assert all[..|all| - 1] == [SaveOp] + ops;
    RunAfterSave(s, ops);
  }

  /** Running `[SaveOp] + ops` is running `ops` from the state `save` leaves. */
  lemma {:induction false} RunAfterSave<T>(s: CheckpointState<T>, ops: seq<Op<T>>)
    requires forall i | 0 <= i < |ops| :: !ops[i].SaveOp?
    ensures Run(s, [SaveOp] + ops).saved == s.current
  {
    if ops == [] {
      assert [SaveOp] + ops == [SaveOp];
      assert ([SaveOp] + ops)[..0] == [];
    } else {
      var prefix := ops[..|ops| - 1];
      assert ([SaveOp] + ops)[..|ops|] == [SaveOp] + prefix;
      RunAfterSave(s, prefix);
    }
  }

  /** The checkpoint cell. `Copy` in the crate; here an object whose `save` and
      `restore` assign its two fields in place. */
  class SaveableData<T> {
    var current: T
    var saved: T

    /** `SaveableData::new`. */
    constructor (current: T, saved: T)
      ensures Current() == current && Saved() == saved
    {
      this.current := current;
      this.saved := saved;
    }

    /** `Booleable::from_bool`: both values are the converted boolean; `fromBool` is
        the conversion of the payload type `T`. */
    constructor FromBool(b: bool, fromBool: bool -> T)
      ensures Current() == fromBool(b) && Saved() == fromBool(b)
    {
      current := fromBool(b);
      saved := fromBool(b);
    }

    ghost function State(): CheckpointState<T>
      reads this
    {
      CheckpointState(current, saved)
    }

    /** `current()`. */
    function Current(): (c: T)
      reads this
      ensures c == State().current
    {
      current
    }

    /** `saved()`. */
    function Saved(): (c: T)
      reads this
      ensures c == State().saved
    {
      saved
    }

    /** Commit: the saved value becomes the current one. */
    method Save()
      modifies this
      ensures Saved() == old(Current()) && Current() == old(Current())
      ensures State() == Step(old(State()), SaveOp)
    {
      saved := current;
    }

    /** Roll back: the current value becomes the saved one. */
    method Restore()
      modifies this
      ensures Current() == old(Saved()) && Saved() == old(Saved())
      ensures State() == Step(old(State()), RestoreOp)
    {
      current := saved;
    }

    /** `Booleable::try_into_bool`: the conversion of the current value only;
        `tryIntoBool` is the conversion of the payload type `T`. */
    function TryIntoBool(tryIntoBool: T -> Option<bool>): (r: Option<bool>)
      reads this
      ensures r == tryIntoBool(State().current)
    {
      tryIntoBool(current)
    }
  }

  /** Two cells that agree on their current value convert to the same boolean,
      whatever they saved. */
  lemma TryIntoBoolIgnoresSaved<T>(a: SaveableData<T>, b: SaveableData<T>, tryIntoBool: T -> Option<bool>)
    requires a.current == b.current
    ensures a.TryIntoBool(tryIntoBool) == b.TryIntoBool(tryIntoBool)
  {
  }
}
