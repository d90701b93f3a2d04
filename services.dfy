/**
 * What the screens see of the backend: a call either fails with an error object or yields a
 * value, and query strings and request bodies are ordered lists of keys and values.
 */
module Services {
  import opened Wrappers
  import opened Strings

  /**
   * An error a service call rejects with: the HTTP status when the error carries one, and the
   * two texts the screens look at (`userMessage`, `message`).
   */
  datatype ServiceError = ServiceError(status: Option<int>, userMessage: Option<string>, message: Option<string>)

  datatype Response<T> = Failed(error: ServiceError) | Succeeded(value: T)

  /** `err?.userMessage || err?.message || fallback`. */
  function ErrorText(e: ServiceError, fallback: string): (r: string)
    ensures Truthy(e.userMessage) ==> r == e.userMessage.value
    ensures !Truthy(e.userMessage) && Truthy(e.message) ==> r == e.message.value
    ensures !Truthy(e.userMessage) && !Truthy(e.message) ==> r == fallback
    ensures fallback != "" ==> r != ""
  {
    if Truthy(e.userMessage) then e.userMessage.value
    else if Truthy(e.message) then e.message.value
    else fallback
  }

  /** A query (`URLSearchParams`) or a request body, as its keys and values in order. */
  type Params = seq<(string, string)>

  /** The value of the first entry with key `key` (`p.get(key)`). */
  function Lookup(p: Params, key: string): (r: Option<string>)
    ensures r.None? <==> forall i :: 0 <= i < |p| ==> p[i].0 != key
    ensures r.Some? ==> exists i :: 0 <= i < |p| && p[i] == (key, r.value)
    decreases |p|
  {
    if |p| == 0 then None
    else if p[0].0 == key then Some(p[0].1)
    else Lookup(p[1..], key)
  }

  /** The keys of `p`, in order. */
  function Keys(p: Params): (r: seq<string>)
    ensures |r| == |p| && forall i :: 0 <= i < |p| ==> r[i] == p[i].0
  {
    seq(|p|, i requires 0 <= i < |p| => p[i].0)
  }

  /** A selection list's first value when it is truthy (`if (sel[0]) p.set(key, sel[0])`). */
  function FirstSelected(sel: seq<string>): (r: Option<string>)
    ensures r.Some? <==> |sel| > 0 && sel[0] != ""
    ensures r.Some? ==> r.value == sel[0]
  {
    if |sel| > 0 && sel[0] != "" then Some(sel[0]) else None
  }

  /** A text filter's value when it is truthy (`if (from) p.set('from', from)`). */
  function NonEmpty(s: string): (r: Option<string>)
    ensures r.Some? <==> s != ""
    ensures r.Some? ==> r.value == s
  {
    if s != "" then Some(s) else None
  }

  /** `p.set(key, v)` for each present `v`, on a key not yet in `p`: the entry goes at the end. */
  lemma {:induction false} LookupAfterAppend(p: Params, key: string, value: string, other: string)
    ensures Lookup(p + [(key, value)], other) == if Lookup(p, other).Some? then Lookup(p, other)
                                                 else if other == key then Some(value) else None
    decreases |p|
  {
    if |p| > 0 {
      assert (p + [(key, value)])[1..] == p[1..] + [(key, value)];
      LookupAfterAppend(p[1..], key, value, other);
    }
  }

  /** `if (v) p.set(key, v)`, on a `p` that has no `key` yet: the entry goes at the end. */
  method SetIfPresent(p: Params, key: string, v: Option<string>) returns (r: Params)
    requires Lookup(p, key).None?
    ensures Lookup(r, key) == v
    ensures forall other :: other != key ==> Lookup(r, other) == Lookup(p, other)
    ensures |p| <= |r| <= |p| + 1 && r[..|p|] == p
  {
    r := p;
    if v.Some? {
      r := p + [(key, v.value)];
      forall other | true
        ensures Lookup(r, other) == if Lookup(p, other).Some? then Lookup(p, other)
                                    else if other == key then v else None
      {
        LookupAfterAppend(p, key, v.value, other);
      }
    }
  }

  /** The three filter entries both list screens add, in order: `status`, `categoria`, `nivel`. */
  method SetSelections(p: Params, status: seq<string>, categoria: seq<string>, nivel: seq<string>) returns (r: Params)
    requires Lookup(p, "status").None? && Lookup(p, "categoria").None? && Lookup(p, "nivel").None?
    ensures Lookup(r, "status") == FirstSelected(status)
    ensures Lookup(r, "categoria") == FirstSelected(categoria)
    ensures Lookup(r, "nivel") == FirstSelected(nivel)
    ensures forall other :: other != "status" && other != "categoria" && other != "nivel" ==> Lookup(r, other) == Lookup(p, other)
    ensures |p| <= |r| <= |p| + 3 && r[..|p|] == p
  {
    var r1 := SetIfPresent(p, "status", FirstSelected(status));
    var r2 := SetIfPresent(r1, "categoria", FirstSelected(categoria));
    r := SetIfPresent(r2, "nivel", FirstSelected(nivel));
    assert r[..|r1|] == r1 && r1[..|p|] == p && r2[..|r1|] == r1 && r[..|r2|] == r2;
    assert r[..|p|] == r1[..|p|];
  }
}
