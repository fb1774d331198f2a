/**
 * The frames the client sends, and the edit policy that chooses them from the
 * `doc` snapshot `{str, revision}` for the two modes (override and append).
 * A small server-side replay gives the frames their meaning: every operation
 * must be anchored at the current revision, applies with ot.js semantics and
 * bumps the revision by one.
 */
module Frames {
  import opened Wrappers
  import opened TextOperation

  datatype Mode = Override | Append

  /** The snapshot carried by the first `doc` event. */
  datatype Snapshot = Snapshot(str: string, revision: int)

  /**
   * Outgoing frames. `Connect` is `40`, `Probe` is `2probe`, `Join` is the
   * `join` event; the others are `42` event frames whose JSON bodies are
   * `["selection", {ranges: [{anchor, head}]}]`,
   * `["cursor activity", {line, ch, sticky: null}]` and
   * `["operation", revision, ops, {ranges: [{anchor, head}]}]`.
   */
  datatype Frame =
    | Connect
    | Probe
    | Join(noteId: string)
    | Selection(anchor: int, head: int)
    | CursorActivity(line: int, ch: int)
    | Operation(revision: int, ops: seq<Component>, anchor: int, head: int)

  /** Frames produced by the edit policy, as opposed to handshake frames. */
  predicate IsEdit(f: Frame)
  {
    f.Selection? || f.CursorActivity? || f.Operation?
  }

  /** The edit frames of a log, in order. */
  function Edits(fs: seq<Frame>): (r: seq<Frame>)
    ensures |r| <= |fs|
    ensures forall i :: 0 <= i < |r| ==> IsEdit(r[i])
  {
    if fs == [] then []
    else (if IsEdit(fs[0]) then [fs[0]] else []) + Edits(fs[1..])
  }

  lemma {:induction false} EditsAppend(a: seq<Frame>, b: seq<Frame>)
    ensures Edits(a + b) == Edits(a) + Edits(b)
    decreases |a|
  {
    if a == [] {
      assert a + b == b;
    } else {
      assert (a + b)[1..] == a[1..] + b;
      EditsAppend(a[1..], b);
    }
  }

  /** The operation frames of a log, in order. */
  function Operations(fs: seq<Frame>): (r: seq<Frame>)
    ensures |r| <= |fs|
    ensures forall i :: 0 <= i < |r| ==> r[i].Operation?
  {
    if fs == [] then []
    else (if fs[0].Operation? then [fs[0]] else []) + Operations(fs[1..])
  }

  /** The document text each mode is meant to leave behind. */
  function Intended(mode: Mode, str: string, content: string): string
  {
    match mode
    case Override => content
    case Append => str + content
  }

  /**
   * The frames sent for the first `doc` snapshot. Override on a non-empty
   * note: select all, move the cursor to its end, delete everything at the
   * snapshot's revision, then insert at the next revision. Override or append
   * on an empty note: one insert. Append on a non-empty note: retain the
   * existing text and insert after it, at the snapshot's revision.
   */
  function EditSequence(mode: Mode, snap: Snapshot, content: string): (fs: seq<Frame>)
    ensures |fs| == (if mode.Override? && snap.str != [] then 4 else 1)
    ensures forall i :: 0 <= i < |fs| ==> IsEdit(fs[i])
    ensures fs[|fs| - 1].Operation?
    ensures fs[|fs| - 1].anchor == fs[|fs| - 1].head == |Intended(mode, snap.str, content)|
    // Override on a non-empty note: select all, cursor to the end, delete all with the cursor at 0, insert.
    ensures mode.Override? && snap.str != [] ==>
              && fs[0] == Selection(0, |snap.str|)
              && fs[1] == CursorActivity(0, |snap.str|)
              && fs[2] == Operation(snap.revision, [Count(-|snap.str|)], 0, 0)
              && fs[3].revision == snap.revision + 1 && fs[3].ops == [Insert(content)]
    // Append on a non-empty note: retain the text, insert after it, at the snapshot's revision.
    ensures mode.Append? && snap.str != [] ==>
              fs[0].revision == snap.revision && fs[0].ops == [Count(|snap.str|), Insert(content)]
    // An empty note: one insert at the snapshot's revision, in either mode.
    ensures snap.str == [] ==> fs[0].revision == snap.revision && fs[0].ops == [Insert(content)]
  {
    var len := |snap.str|;
    if len > 0 then
      match mode
      case Override =>
        [ Selection(0, len),
          CursorActivity(0, len),
          Operation(snap.revision, [Count(-len)], 0, 0),
          Operation(snap.revision + 1, [Insert(content)], |content|, |content|) ]
      case Append =>
        [ Operation(snap.revision, [Count(len), Insert(content)], len + |content|, len + |content|) ]
    else
      [ Operation(snap.revision, [Insert(content)], |content|, |content|) ]
  }

  datatype Replayed = Replayed(doc: string, revision: int)

  /**
   * The server's reading of a frame sequence: an operation must carry the
   * current revision and apply to the current text; it then becomes the text
   * of the next revision. Selection and cursor frames change nothing.
   */
  function Replay(fs: seq<Frame>, doc: string, revision: int): Option<Replayed>
  {
    if fs == [] then Some(Replayed(doc, revision))
    else match fs[0]
      case Operation(rev, ops, _, _) =>
        if rev != revision then None
        else (match Apply(ops, doc)
              case None => None
              case Some(next) => Replay(fs[1..], next, revision + 1))
      case _ => Replay(fs[1..], doc, revision)
  }

  /**
   * The edit sequence does what each mode promises: replayed against the
   * snapshot it turns the text into the intended text, and every operation in
   * it is anchored at the revision the server holds when it arrives.
   */
  lemma EditSequenceReplays(mode: Mode, snap: Snapshot, content: string)
    ensures Replay(EditSequence(mode, snap, content), snap.str, snap.revision)
            == Some(Replayed(Intended(mode, snap.str, content),
                             snap.revision + |Operations(EditSequence(mode, snap, content))|))
  {
    var fs := EditSequence(mode, snap, content);
    var len := |snap.str|;
    if len == 0 {
      InsertIntoEmpty(content);
      assert snap.str == [] && snap.str + content == content;
      assert fs[1..] == [];
      assert Operations(fs) == [fs[0]];
    } else if mode.Override? {
      DeleteAllEmpties(snap.str);
      InsertIntoEmpty(content);
      OverrideOperations(fs);
      assert Replay(fs[3..], [], snap.revision + 1) == Some(Replayed(content, snap.revision + 2)) by {
        assert fs[3..][1..] == [];
      }
      assert Replay(fs[2..], snap.str, snap.revision) == Replay(fs[3..], [], snap.revision + 1) by {
        assert fs[2..][0] == fs[2] && fs[2..][1..] == fs[3..];
      }
      assert Replay(fs[1..], snap.str, snap.revision) == Replay(fs[2..], snap.str, snap.revision) by {
        assert fs[1..][1..] == fs[2..];
      }
    } else {
      RetainThenInsertAppends(snap.str, content);
      assert fs[1..] == [];
      assert Operations(fs) == [fs[0]];
    }
  }

  /**
   * Every operation's retained plus deleted count is the length of the text
   * it is applied to: the snapshot for the first, the emptied note for the
   * override's insert.
   */
  lemma EditSequenceBaseLengths(mode: Mode, snap: Snapshot, content: string)
    ensures var ops := Operations(EditSequence(mode, snap, content));
            && |ops| == (if mode.Override? && snap.str != [] then 2 else 1)
            && ops[0].revision == snap.revision
            && BaseLength(ops[0].ops) == |snap.str|
            && (|ops| == 2 ==> ops[1].revision == snap.revision + 1 && BaseLength(ops[1].ops) == 0)
  {
    var fs := EditSequence(mode, snap, content);
    if mode.Override? && snap.str != [] {
      OverrideOperations(fs);
      assert BaseLength([Insert(content)]) == 0 by {
        assert [Insert(content)][1..] == [];
      }
      assert BaseLength([Count(-|snap.str|)]) == |snap.str| by {
        assert [Count(-|snap.str|)][1..] == [];
      }
    } else {
      assert fs[1..] == [];
      assert Operations(fs) == [fs[0]];
      if snap.str != [] {
        var ops := [Count(|snap.str|), Insert(content)];
        assert ops[1..][1..] == [];
        assert BaseLength(ops[1..]) == 0;
      } else {
        assert [Insert(content)][1..] == [];
      }
    }
  }

  /** The operations of a four-frame override are its last two frames. */
  lemma OverrideOperations(fs: seq<Frame>)
    requires |fs| == 4 && !fs[0].Operation? && !fs[1].Operation?
    requires fs[2].Operation? && fs[3].Operation?
    ensures Operations(fs) == [fs[2], fs[3]]
  {
    assert fs[1..][1..] == fs[2..];
    assert fs[2..][1..] == fs[3..];
    assert fs[3..][1..] == [];
    assert Operations(fs[3..]) == [fs[3]];
    assert Operations(fs[2..]) == [fs[2], fs[3]];
  }

  /** The worked examples: "hello" at revision 5, and the empty note at revision 0. */
  lemma Scenarios()
    ensures EditSequence(Override, Snapshot("hello", 5), "bye")
            == [Selection(0, 5), CursorActivity(0, 5),
                Operation(5, [Count(-5)], 0, 0), Operation(6, [Insert("bye")], 3, 3)]
    ensures EditSequence(Append, Snapshot("hello", 5), " world")
            == [Operation(5, [Count(5), Insert(" world")], 11, 11)]
    ensures EditSequence(Override, Snapshot("", 0), "x") == [Operation(0, [Insert("x")], 1, 1)]
    ensures EditSequence(Append, Snapshot("", 0), "x") == [Operation(0, [Insert("x")], 1, 1)]
  {
  }
}
