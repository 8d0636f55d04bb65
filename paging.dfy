/**
 * Page windows over a list, as both record screens cut them with
 * `Array.prototype.slice(k * size, k * size + size)` for a zero-based page index k.
 */
module Paging {
  import opened JsRuntime

  function Min(a: int, b: int): int {
    if a <= b then a else b
  }

  /** The records on zero-based page `k` when `size` records fit on a page. */
  function PageOf<T>(s: seq<T>, k: int, size: int): seq<T> {
    JsSlice(s, k * size, k * size + size)
  }

  /** Page `k` is the stretch of positions from k * size to (k + 1) * size, cut at the end of the list. */
  lemma PageShape<T>(s: seq<T>, k: nat, size: nat)
    requires size > 0
    ensures PageOf(s, k, size) == s[Min(k * size, |s|)..Min(k * size + size, |s|)]
    ensures |PageOf(s, k, size)| <= size
  {
  }

  /** Pages at or past the page count hold nothing; earlier pages are never empty. */
  lemma {:induction false} PageEmptyIffPastEnd<T>(s: seq<T>, k: nat, size: nat)
    requires size > 0
    ensures PageOf(s, k, size) == [] <==> k >= CeilDiv(|s|, size)
  {
    PageShape(s, k, size);
    var c := CeilDiv(|s|, size);
    if k >= c {
      assert k * size >= c * size by {
        MulMonotone(c, k, size);
      }
    } else {
      assert k <= c - 1;
      assert k * size <= (c - 1) * size by {
        MulMonotone(k, c - 1, size);
      }
    }
  }

  lemma MulMonotone(a: nat, b: nat, m: nat)
    requires a <= b
    ensures a * m <= b * m
  {
  }

  /** Pages 0 .. n - 1 laid end to end. */
  function FirstPages<T>(s: seq<T>, size: nat, n: nat): seq<T> {
    if n == 0 then [] else FirstPages(s, size, n - 1) + PageOf(s, n - 1, size)
  }

  /** The first n pages are exactly the first n * size records. */
  lemma {:induction false} FirstPagesPrefix<T>(s: seq<T>, size: nat, n: nat)
    requires size > 0
    ensures FirstPages(s, size, n) == s[..Min(n * size, |s|)]
  {
    if n > 0 {
      FirstPagesPrefix(s, size, n - 1);
      PageShape(s, n - 1, size);
      assert (n - 1) * size + size == n * size;
      var a := Min((n - 1) * size, |s|);
      var b := Min(n * size, |s|);
      assert s[..a] + s[a..b] == s[..b];
    }
  }

  /** The pages 0 .. ceil(|s| / size) - 1 concatenate back to the whole list: no record is lost or repeated. */
  lemma {:induction false} PagesCover<T>(s: seq<T>, size: nat)
    requires size > 0
    ensures FirstPages(s, size, CeilDiv(|s|, size)) == s
  {
    var c := CeilDiv(|s|, size);
    FirstPagesPrefix(s, size, c);
    assert s[..|s|] == s;
  }
}
