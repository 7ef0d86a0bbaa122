/**
 * Inline-style maps and the pending-style buffer that a proxy holds while it
 * is not yet created. The buffer is Java's nullable `Map`: `None` is `null`,
 * which is what the attach task leaves behind once it has consumed it.
 */
module Styles {
  import opened Wrappers

  /** A parsed inline style: property name to raw value. */
  type StyleMap = map<string, string>

  /** The pending-style buffer; `None` once consumed. */
  type Buffer = Option<StyleMap>

  /** The map a renderer call receives for a buffer: a null buffer applies nothing. */
  function Applied(buf: Buffer): StyleMap
  {
    if buf.Some? then buf.value else map[]
  }

  /**
   * The merge task's `if (buf != null) buf.putAll(m)`: a null buffer stays
   * null; otherwise every key of `m` overrides, the other keys stay.
   */
  function PutAll(buf: Buffer, m: StyleMap): (r: Buffer)
    ensures r.Some? <==> buf.Some?
    ensures r.Some? ==> r.value.Keys == buf.value.Keys + m.Keys
    ensures r.Some? ==> forall k :: k in m ==> r.value[k] == m[k]
    ensures r.Some? ==> forall k :: k in buf.value && k !in m ==> r.value[k] == buf.value[k]
  {
    match buf
    case None => None
    case Some(b) => Some(b + m)
  }

  /**
   * The buffer after the merge tasks for `ms` have run, in the order they
   * were posted. A live buffer stays live, and a consumed buffer stays
   * consumed however many merges run after it.
   */
  function MergeAll(buf: Buffer, ms: seq<StyleMap>): (r: Buffer)
    ensures r.Some? <==> buf.Some?
  {
    if ms == [] then buf else PutAll(MergeAll(buf, ms[..|ms| - 1]), ms[|ms| - 1])
  }

  /** One more posted merge extends the fold by one step. */
  lemma {:induction false} MergeAllSnoc(buf: Buffer, ms: seq<StyleMap>, m: StyleMap)
    ensures MergeAll(buf, ms + [m]) == PutAll(MergeAll(buf, ms), m)
  {
  }

  /** `i` is the last of the maps `ms` that declares `k`. */
  ghost predicate LastDeclares(ms: seq<StyleMap>, k: string, i: int)
  {
    0 <= i < |ms| && k in ms[i] && forall j :: i < j < |ms| ==> k !in ms[j]
  }

  /** After merging `ms` into a live buffer `b`, a key is present iff `b` or one of the maps declares it. */
  lemma {:induction false} MergeAllKeys(b: StyleMap, ms: seq<StyleMap>, k: string)
    ensures k in MergeAll(Some(b), ms).value <==> k in b || exists i :: 0 <= i < |ms| && k in ms[i]
  {
    if ms != [] {
      var n := |ms| - 1;
      var init := ms[..n];
      MergeAllKeys(b, init, k);
      if k in MergeAll(Some(b), ms).value && k !in b && k !in ms[n] {
        var i :| 0 <= i < n && k in init[i];
        assert init[i] == ms[i];
      }
      if exists i :: 0 <= i < |ms| && k in ms[i] {
        var i :| 0 <= i < |ms| && k in ms[i];
        if i < n {
          assert init[i] == ms[i];
        }
      }
    }
  }

  /** Later declarations override earlier ones: the last map declaring `k` gives its value. */
  lemma {:induction false} MergeAllLastWins(b: StyleMap, ms: seq<StyleMap>, k: string, i: int)
    requires LastDeclares(ms, k, i)
    ensures k in MergeAll(Some(b), ms).value && MergeAll(Some(b), ms).value[k] == ms[i][k]
  {
    var n := |ms| - 1;
    var init := ms[..n];
    if i < n {
      assert k !in ms[n];
      assert init[i] == ms[i];
      assert LastDeclares(init, k, i) by {
        forall j | i < j < n
          ensures k !in init[j]
        {
          assert init[j] == ms[j];
        }
      }
      MergeAllLastWins(b, init, k, i);
    }
  }

  /** A key no map declares keeps the value it had in the buffer. */
  lemma {:induction false} MergeAllUndeclared(b: StyleMap, ms: seq<StyleMap>, k: string)
    requires k in b
    requires forall i :: 0 <= i < |ms| ==> k !in ms[i]
    ensures k in MergeAll(Some(b), ms).value && MergeAll(Some(b), ms).value[k] == b[k]
  {
    if ms != [] {
      var n := |ms| - 1;
      var init := ms[..n];
      assert k !in ms[n];
      assert forall i :: 0 <= i < n ==> k !in init[i] by {
        forall i | 0 <= i < n
          ensures k !in init[i]
        {
          assert init[i] == ms[i];
        }
      }
      MergeAllUndeclared(b, init, k);
    }
  }
}
