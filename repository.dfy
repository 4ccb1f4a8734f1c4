/**
 * The Spring Data repositories of the payment, kitchen and delivery services,
 * over the sequence of saved rows: a derived `findBy…` query selects the rows
 * whose field matches, and a single-result finder (`T?`) answers none, the
 * one match, or an exception when several rows match.
 */
module Repositories {
  import opened Wrappers
  import opened DomainPrimitives

  /** The positions of the rows that `key` selects, in order. */
  function Matching<T>(rows: seq<T>, key: T -> bool): (r: seq<nat>)
    ensures forall k :: 0 <= k < |r| ==> r[k] < |rows| && key(rows[r[k]])
    ensures forall i :: 0 <= i < |rows| && key(rows[i]) ==> i in r
  {
    if |rows| == 0 then []
    else
      var last := |rows| - 1;
      Matching(rows[..last], key) + (if key(rows[last]) then [last] else [])
  }

  /** A key that selects nothing has no match. */
  lemma {:induction false} NoMatch<T>(rows: seq<T>, key: T -> bool)
    requires forall j :: 0 <= j < |rows| ==> !key(rows[j])
    ensures Matching(rows, key) == []
  {
    if |rows| > 0 {
      NoMatch(rows[..|rows| - 1], key);
    }
  }

  /** A key that selects exactly position `i` has that one match. */
  lemma {:induction false} OnlyMatch<T>(rows: seq<T>, key: T -> bool, i: nat)
    requires i < |rows| && key(rows[i])
    requires forall j :: 0 <= j < |rows| && j != i ==> !key(rows[j])
    ensures Matching(rows, key) == [i]
  {
    var last := |rows| - 1;
    if i == last {
      NoMatch(rows[..last], key);
    } else {
      OnlyMatch(rows[..last], key, i);
    }
  }

  /** A finder returning `T?`: none, the one match, or Spring's IncorrectResultSizeDataAccessException for several. */
  function SingleResult(matches: seq<nat>): (r: Result<Option<nat>, Error>)
    ensures r.Success? <==> |matches| <= 1
    ensures r.Failure? ==> r.error == IncorrectResultSize(|matches|)
    ensures r.Success? && r.value.Some? ==> matches == [r.value.value]
    ensures r.Success? && r.value.None? ==> matches == []
  {
    if |matches| == 0 then Success(None)
    else if |matches| == 1 then Success(Some(matches[0]))
    else Failure(IncorrectResultSize(|matches|))
  }
}
