/**
 * The ot.js TextOperation encoding the editor server speaks, with a reference
 * `Apply`: a positive count retains that many characters, a negative count
 * deletes that many, a string inserts itself; components act left to right and
 * the operation must consume the whole document.
 */
module TextOperation {
  import opened Wrappers

  datatype Component = Count(n: int) | Insert(text: string)

  /** Every count is a retain or a delete: ot.js rejects a zero count. */
  predicate WellFormed(ops: seq<Component>)
  {
    forall i :: 0 <= i < |ops| ==> ops[i].Count? ==> ops[i].n != 0
  }

  /** Characters the operation reads from its input: retained plus deleted. */
  function BaseLength(ops: seq<Component>): nat
  {
    if ops == [] then 0
    else
      var here := match ops[0]
        case Count(n) => if n < 0 then -n else n
        case Insert(_) => 0;
      here + BaseLength(ops[1..])
  }

  /** Characters the operation produces: retained plus inserted. */
  function TargetLength(ops: seq<Component>): nat
  {
    if ops == [] then 0
    else
      var here := match ops[0]
        case Count(n) => if n > 0 then n else 0
        case Insert(s) => |s|;
      here + TargetLength(ops[1..])
  }

  /** Applies `ops` to `doc`; `None` where ot.js's `apply` throws. */
  function Apply(ops: seq<Component>, doc: string): Option<string>
    decreases |ops|
  {
    if ops == [] then
      if doc == [] then Some([]) else None
    else
      match ops[0]
      case Insert(s) =>
        var rest := Apply(ops[1..], doc);
        if rest.None? then None else Some(s + rest.value)
      case Count(n) =>
        if 0 < n <= |doc| then
          var rest := Apply(ops[1..], doc[n..]);
          if rest.None? then None else Some(doc[..n] + rest.value)
        else if n < 0 && -n <= |doc| then
          Apply(ops[1..], doc[-n..])
        else
          None
  }

  /**
   * An operation applies exactly when it is well formed and its base length is
   * the document's length, and then the result has the target length.
   */
  lemma {:induction false} ApplyDefined(ops: seq<Component>, doc: string)
    ensures Apply(ops, doc).Some? <==> WellFormed(ops) && BaseLength(ops) == |doc|
    ensures Apply(ops, doc).Some? ==> |Apply(ops, doc).value| == TargetLength(ops)
    decreases |ops|
  {
    if ops != [] {
      assert WellFormed(ops) <==> (ops[0].Count? ==> ops[0].n != 0) && WellFormed(ops[1..]) by {
        if WellFormed(ops[1..]) && (ops[0].Count? ==> ops[0].n != 0) {
          forall i | 0 <= i < |ops| && ops[i].Count? ensures ops[i].n != 0 {
            if i > 0 { assert ops[i] == ops[1..][i - 1]; }
          }
        }
        if WellFormed(ops) {
          forall i | 0 <= i < |ops[1..]| && ops[1..][i].Count? ensures ops[1..][i].n != 0 {
            assert ops[1..][i] == ops[i + 1];
          }
        }
      }
      match ops[0]
      case Insert(s) =>
        ApplyDefined(ops[1..], doc);
      case Count(n) =>
        if 0 < n <= |doc| {
          ApplyDefined(ops[1..], doc[n..]);
        } else if n < 0 && -n <= |doc| {
          ApplyDefined(ops[1..], doc[-n..]);
        } else if n != 0 {
          // Retaining or deleting past the end: the rest cannot make up the length.
          assert BaseLength(ops) >= (if n < 0 then -n else n) > |doc|;
        }
    }
  }

  /** Deleting the whole document leaves it empty. */
  lemma DeleteAllEmpties(doc: string)
    requires doc != []
    ensures Apply([Count(-|doc|)], doc) == Some([])
  {
  }

  /** Inserting into the empty document yields the inserted text. */
  lemma InsertIntoEmpty(text: string)
    ensures Apply([Insert(text)], []) == Some(text)
  {
    assert text + [] == text;
  }

  /** Retaining the whole document and inserting after it appends. */
  lemma RetainThenInsertAppends(doc: string, text: string)
    requires doc != []
    ensures Apply([Count(|doc|), Insert(text)], doc) == Some(doc + text)
  {
    var tail := [Count(|doc|), Insert(text)][1..];
    assert tail == [Insert(text)];
    InsertIntoEmpty(text);
    assert doc[|doc|..] == [];
    assert doc[..|doc|] == doc;
  }
}
