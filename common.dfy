/** Option, Result and stored-file values shared by every module of the model. */
module Common {
  datatype Option<T> = None | Some(value: T)
  {
    predicate IsSome() { this.Some? }

    function GetOr(default: T): T
    {
      match this
      case None => default
      case Some(v) => v
    }
  }

  datatype Result<T, E> = Ok(value: T) | Err(error: E)

  /** A JSON file on disk: absent, present but not valid JSON, or parsed. */
  datatype Stored<T> = Missing | Corrupt | Parsed(value: T)

  /** A non-empty sequence is its front and its last element. */
  lemma FrontLast<T>(s: seq<T>)
    requires s != []
    ensures s == s[..|s| - 1] + [s[|s| - 1]]
  {
  }

  /** The prefix of length i + 1 is the prefix of length i and the element at i. */
  lemma SliceSnoc<T>(s: seq<T>, i: nat)
    requires i < |s|
    ensures s[..i + 1] == s[..i] + [s[i]]
  {
  }

  /** Cutting the prefix of length k + 1 back to length k gives the prefix of length k. */
  lemma PrefixOfPrefix<T>(s: seq<T>, k: nat)
    requires k < |s|
    ensures s[..k + 1][..k] == s[..k] && s[..k + 1][k] == s[k]
  {
  }

  /** A sequence is what comes before position k, the element at k, and what comes after. */
  lemma SplitAround<T>(s: seq<T>, k: nat)
    requires k < |s|
    ensures s == s[..k] + ([s[k]] + s[k + 1..])
  {
  }

  /** The values f gives over xs, in order, leaving out the elements it gives None for. */
  function Somes<A, B>(xs: seq<A>, f: A -> Option<B>): seq<B>
  {
    if xs == [] then []
    else
      var v := f(xs[|xs| - 1]);
      Somes(xs[..|xs| - 1], f) + if v.Some? then [v.value] else []
  }

  lemma {:induction false} SomesSpec<A, B>(xs: seq<A>, f: A -> Option<B>, x: B)
    ensures x in Somes(xs, f) <==> exists i :: 0 <= i < |xs| && f(xs[i]) == Some(x)
  {
    if xs != [] {
      var q := xs[..|xs| - 1];
      SomesSpec(q, f, x);
      if x in Somes(q, f) {
        var i :| 0 <= i < |q| && f(q[i]) == Some(x);
        assert xs[i] == q[i];
      }
      if exists i :: 0 <= i < |xs| && f(xs[i]) == Some(x) {
        var i :| 0 <= i < |xs| && f(xs[i]) == Some(x);
        if i < |q| {
          assert q[i] == xs[i];
        }
      }
    }
  }

  /** Each element gives at most one value. */
  lemma {:induction false} SomesAtMost<A, B>(xs: seq<A>, f: A -> Option<B>)
    ensures |Somes(xs, f)| <= |xs|
  {
    if xs != [] {
      SomesAtMost(xs[..|xs| - 1], f);
    }
  }

  /** When f gives a value for every element, the values are those of the elements one for one. */
  lemma {:induction false} SomesAll<A, B>(xs: seq<A>, f: A -> Option<B>)
    requires forall k :: 0 <= k < |xs| ==> f(xs[k]).Some?
    ensures |Somes(xs, f)| == |xs| && forall k :: 0 <= k < |xs| ==> Some(Somes(xs, f)[k]) == f(xs[k])
  {
    if xs != [] {
      var init := xs[..|xs| - 1];
      assert forall k :: 0 <= k < |init| ==> init[k] == xs[k];
      SomesAll(init, f);
    }
  }

  /** Two functions that agree on every element give the same values. */
  lemma {:induction false} SomesAgree<A, B>(xs: seq<A>, f: A -> Option<B>, g: A -> Option<B>)
    requires forall k :: 0 <= k < |xs| ==> f(xs[k]) == g(xs[k])
    ensures Somes(xs, f) == Somes(xs, g)
  {
    if xs != [] {
      var init := xs[..|xs| - 1];
      assert forall k :: 0 <= k < |init| ==> init[k] == xs[k];
      SomesAgree(init, f, g);
    }
  }
}
