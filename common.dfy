/** Small generic helpers shared by every module of the model. */
module Common {

  /** A value that may be absent: a missing dictionary key, a `None`. */
  datatype Option<+T> = None | Some(value: T) {
    /** `d.get(key, default)` */
    function GetOr(default: T): T {
      match this
      case Some(v) => v
      case None => default
    }
  }

  /** What a call to the language model returns: a dictionary holding an
      `error` key, or a reply the agent reads its fields from. */
  datatype LlmReply<+R> = LlmError(error: string) | LlmOk(reply: R)

  /** A call made inside `try`: it may raise instead of returning. */
  datatype Attempt<+R> = Threw(message: string) | Returned(result: LlmReply<R>)

  /** A step that either finishes with a value or raises an exception the
      code does not catch; `kind` is the exception's class name. */
  datatype Outcome<+R> = Done(value: R) | Crashed(kind: string)

  /** The list comprehension `[x for x in s if p(x)]`. */
  function Filter<T>(p: T -> bool, s: seq<T>): (r: seq<T>)
    ensures |r| <= |s|
    ensures forall i :: 0 <= i < |s| ==> (s[i] in r <==> p(s[i]))
    ensures forall i :: 0 <= i < |r| ==> r[i] in s && p(r[i])
  {
    if s == [] then []
    else if p(s[0]) then [s[0]] + Filter(p, s[1..])
    else Filter(p, s[1..])
  }

  lemma {:induction false} FilterAppend<T>(p: T -> bool, a: seq<T>, b: seq<T>)
    ensures Filter(p, a + b) == Filter(p, a) + Filter(p, b)
  {
    if a != [] {
      var ab := a + b;
      assert ab[0] == a[0] && ab[1..] == a[1..] + b;
      FilterAppend(p, a[1..], b);
      var head := if p(a[0]) then [a[0]] else [];
      assert Filter(p, ab) == head + Filter(p, ab[1..]);
      assert Filter(p, a) == head + Filter(p, a[1..]);
      assert head + (Filter(p, a[1..]) + Filter(p, b)) == (head + Filter(p, a[1..])) + Filter(p, b);
    } else {
      assert a + b == b;
    }
  }

  /** Filtering keeps everything exactly when every element passes. */
  lemma {:induction false} FilterAll<T>(p: T -> bool, s: seq<T>)
    requires forall x :: x in s ==> p(x)
    ensures Filter(p, s) == s
  {
    if s != [] {
      FilterAll(p, s[1..]);
    }
  }

  /** The images under `f` of the first `n` elements of `s`, concatenated
      in order: a nested `for` loop appending to one list. */
  function ConcatMap<A, B>(f: A -> seq<B>, s: seq<A>, n: nat): seq<B>
    requires n <= |s|
  {
    if n == 0 then [] else ConcatMap(f, s, n - 1) + f(s[n - 1])
  }

  /** An element of the concatenation comes from one of the images. */
  lemma {:induction false} ConcatMapFrom<A, B>(f: A -> seq<B>, s: seq<A>, n: nat, y: B)
    requires n <= |s| && y in ConcatMap(f, s, n)
    ensures exists k :: 0 <= k < n && y in f(s[k])
  {
    if y in ConcatMap(f, s, n - 1) {
      ConcatMapFrom(f, s, n - 1, y);
      var k :| 0 <= k < n - 1 && y in f(s[k]);
    } else {
      assert y in f(s[n - 1]);
    }
  }

  /** Every element of one of the images is in the concatenation. */
  lemma {:induction false} ConcatMapOf<A, B>(f: A -> seq<B>, s: seq<A>, n: nat, k: nat, y: B)
    requires k < n <= |s| && y in f(s[k])
    ensures y in ConcatMap(f, s, n)
  {
    if k < n - 1 {
      ConcatMapOf(f, s, n - 1, k, y);
    }
  }

  function Min(a: int, b: int): int { if a <= b then a else b }
  function Max(a: int, b: int): int { if a >= b then a else b }
}
