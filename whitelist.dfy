/** `FilterComponentsUsingWhitelist`, the in-place filter every lookup
    provider applies to the components it found. The three generations
    carry identical copies of it; this module models it once. */
module Whitelist {
  import opened Base
  import opened SceneGraph

  /** `whitelist.Any(type => type.IsInstanceOfType(c))`. */
  function AnyInstance(s: Scene, c: Component, whitelist: seq<TypeTag>): (b: bool)
    ensures b <==> exists k :: 0 <= k < |whitelist| && IsA(s, c.ty, whitelist[k])
  {
    |whitelist| > 0 && (IsA(s, c.ty, whitelist[0]) || AnyInstance(s, c, whitelist[1..]))
  }

  /** The components of `cs` that are an instance of some whitelisted type,
      in their original order. */
  function Whitelisted(s: Scene, cs: seq<Component>, whitelist: seq<TypeTag>): (r: seq<Component>)
    ensures |r| <= |cs|
    ensures forall c :: c in r <==> c in cs && AnyInstance(s, c, whitelist)
    ensures whitelist == [] ==> r == []
  {
    if cs == [] then []
    else (if AnyInstance(s, cs[0], whitelist) then [cs[0]] else []) + Whitelisted(s, cs[1..], whitelist)
  }

  /** What filtering `candidates` by `whitelist` may produce: with a null
      whitelist, `Any` throws as soon as it is asked about a first
      component, so only an empty list gets through; otherwise the result
      keeps, in order, exactly the candidates some listed type admits. */
  ghost predicate FilteredFrom(s: Scene, r: Result<seq<Component>>, candidates: seq<Component>, whitelist: Option<seq<TypeTag>>) {
    match whitelist
    case None => r == (if candidates == [] then Ok([]) else Err(ArgumentNull("source")))
    case Some(w) =>
      r.Ok? && Subsequence(r.value, candidates)
      && forall c :: c in r.value <==> c in candidates && AnyInstance(s, c, w)
  }

  /** The list the filter leaves behind, or the exception it throws. */
  function Filtered(s: Scene, cs: seq<Component>, whitelist: Option<seq<TypeTag>>): (r: Result<seq<Component>>)
    ensures FilteredFrom(s, r, cs, whitelist)
  {
    match whitelist
    case None => if cs == [] then Ok([]) else Err(ArgumentNull("source"))
    case Some(w) => WhitelistedIsSubsequence(s, cs, w); Ok(Whitelisted(s, cs, w))
  }

  /** The filter as the library runs it: walk the list from the back and
      remove every component that no whitelisted type admits. */
  method FilterComponentsUsingWhitelist(s: Scene, components: seq<Component>, whitelist: Option<seq<TypeTag>>)
    returns (r: Result<seq<Component>>)
    ensures r == Filtered(s, components, whitelist)
  {
    var w := whitelist.GetOr([]);
    var list := components;
    var i := |list| - 1;
    while i >= 0
      invariant -1 <= i < |components|
      invariant whitelist.None? ==> list == components && i == |components| - 1
      invariant whitelist.Some? ==> w == whitelist.value
      invariant whitelist.Some? ==> list == components[..i + 1] + Whitelisted(s, components[i + 1..], w)
    {
      if whitelist.None? {
        return Err(ArgumentNull("source"));
      }
      WhitelistedRemoveStep(s, components, list, i, w);
      if !AnyInstance(s, list[i], w) {
        list := list[..i] + list[i + 1..];
      }
      i := i - 1;
    }
    if whitelist.Some? {
      assert components[..0] == [] && components[0..] == components;
      assert list == Whitelisted(s, components, whitelist.value);
    }
    r := Ok(list);
  }

  /** One step of the backward walk: the survivors from position `i` on are
      the component at `i`, if admitted, followed by the later survivors. */
  lemma WhitelistedStep(s: Scene, cs: seq<Component>, i: nat, whitelist: seq<TypeTag>)
    requires i < |cs|
    ensures Whitelisted(s, cs[i..], whitelist)
         == (if AnyInstance(s, cs[i], whitelist) then [cs[i]] else []) + Whitelisted(s, cs[i + 1..], whitelist)
  {
    assert cs[i..][0] == cs[i] && cs[i..][1..] == cs[i + 1..];
  }

  /** One iteration of the backward walk: removing the component at `i`
      when no whitelisted type admits it extends the filtered tail by one. */
  lemma WhitelistedRemoveStep(s: Scene, components: seq<Component>, list: seq<Component>, i: nat, w: seq<TypeTag>)
    requires i < |components|
    requires list == components[..i + 1] + Whitelisted(s, components[i + 1..], w)
    ensures i < |list| && list[i] == components[i]
    ensures (if AnyInstance(s, list[i], w) then list else list[..i] + list[i + 1..])
         == components[..i] + Whitelisted(s, components[i..], w)
  {
    ghost var rest := Whitelisted(s, components[i + 1..], w);
    WhitelistedStep(s, components, i, w);
    assert components[..i + 1] == components[..i] + [components[i]];
    assert list[..i] == components[..i] && list[i] == components[i] && list[i + 1..] == rest;
  }

  /** The survivors are a subsequence of the input. */
  lemma {:induction false} WhitelistedIsSubsequence(s: Scene, cs: seq<Component>, whitelist: seq<TypeTag>)
    ensures Subsequence(Whitelisted(s, cs, whitelist), cs)
  {
    if cs != [] {
      WhitelistedIsSubsequence(s, cs[1..], whitelist);
      var r := Whitelisted(s, cs, whitelist);
      if AnyInstance(s, cs[0], whitelist) {
        assert r[0] == cs[0] && r[1..] == Whitelisted(s, cs[1..], whitelist);
      } else {
        assert r == Whitelisted(s, cs[1..], whitelist);
      }
    }
  }

  /** Filtering distributes over concatenation. */
  lemma {:induction false} WhitelistedAppend(s: Scene, a: seq<Component>, b: seq<Component>, whitelist: seq<TypeTag>)
    ensures Whitelisted(s, a + b, whitelist) == Whitelisted(s, a, whitelist) + Whitelisted(s, b, whitelist)
  {
    if a != [] {
      assert (a + b)[0] == a[0] && (a + b)[1..] == a[1..] + b;
      WhitelistedAppend(s, a[1..], b, whitelist);
    } else {
      assert a + b == b;
    }
  }

  /** A whitelist that lists Component removes nothing. */
  lemma {:induction false} ComponentWhitelistKeepsAll(s: Scene, cs: seq<Component>, whitelist: seq<TypeTag>)
    requires ComponentType in whitelist
    ensures Whitelisted(s, cs, whitelist) == cs
  {
    if cs != [] {
      var k :| 0 <= k < |whitelist| && whitelist[k] == ComponentType;
      EveryTypeIsAComponent(s, cs[0].ty);
      assert AnyInstance(s, cs[0], whitelist);
      ComponentWhitelistKeepsAll(s, cs[1..], whitelist);
    }
  }

  /** A larger whitelist keeps a superset of a smaller one's survivors:
      filtering with the smaller list is the same as filtering the larger
      list's survivors again. */
  lemma {:induction false} WiderWhitelistKeepsMore(s: Scene, cs: seq<Component>, small: seq<TypeTag>, large: seq<TypeTag>)
    requires forall t :: t in small ==> t in large
    ensures Whitelisted(s, cs, small) == Whitelisted(s, Whitelisted(s, cs, large), small)
    ensures forall c :: c in Whitelisted(s, cs, small) ==> c in Whitelisted(s, cs, large)
  {
    if cs != [] {
      WiderWhitelistKeepsMore(s, cs[1..], small, large);
      var c := cs[0];
      var rest := Whitelisted(s, cs[1..], large);
      if AnyInstance(s, c, small) {
        var k :| 0 <= k < |small| && IsA(s, c.ty, small[k]);
        assert small[k] in large;
        var j :| 0 <= j < |large| && large[j] == small[k];
        assert AnyInstance(s, c, large);
        assert Whitelisted(s, cs, large) == [c] + rest;
        assert ([c] + rest)[0] == c && ([c] + rest)[1..] == rest;
      } else if AnyInstance(s, c, large) {
        assert Whitelisted(s, cs, large) == [c] + rest;
        assert ([c] + rest)[0] == c && ([c] + rest)[1..] == rest;
        assert Whitelisted(s, [c] + rest, small) == Whitelisted(s, rest, small);
        assert Whitelisted(s, cs, small) == Whitelisted(s, cs[1..], small);
      } else {
        assert Whitelisted(s, cs, large) == rest;
        assert Whitelisted(s, cs, small) == Whitelisted(s, cs[1..], small);
      }
    }
  }

  /** Filtering twice with the same whitelist changes nothing more. */
  lemma WhitelistedIdempotent(s: Scene, cs: seq<Component>, whitelist: seq<TypeTag>)
    ensures Whitelisted(s, Whitelisted(s, cs, whitelist), whitelist) == Whitelisted(s, cs, whitelist)
  {
    WiderWhitelistKeepsMore(s, cs, whitelist, whitelist);
  }

  /** A single-type whitelist keeps exactly the instances of that type. */
  lemma {:induction false} SingleTypeWhitelistIsOfType(s: Scene, cs: seq<Component>, t: TypeTag)
    ensures Whitelisted(s, cs, [t]) == OfType(s, cs, t)
  {
    if cs != [] {
      assert AnyInstance(s, cs[0], [t]) == IsA(s, cs[0].ty, t) by {
        assert [t][1..] == [];
      }
      SingleTypeWhitelistIsOfType(s, cs[1..], t);
    }
  }
}
