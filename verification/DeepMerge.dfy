/** The two recursive merges of request_policy.py and the laws they obey. */
module DeepMerge {
  import opened Common
  import opened Json

  // ---- Specification functions -------------------------------------------

  /** Values of `over` win; two objects are merged key by key. */
  function Override(base: Json, over: Json): Json
    decreases over
  {
    if base.Obj? && over.Obj? then
      Obj(map k | k in base.fields.Keys + over.fields.Keys ::
            if k !in over.fields then base.fields[k]
            else if k in base.fields then Override(base.fields[k], over.fields[k])
            else over.fields[k])
    else over
  }

  /** Values of `payload` win; `defaults` fills the gaps, also inside objects. */
  function Defaults(payload: Json, defaults: Json): Json
    decreases defaults
  {
    if payload.Obj? && defaults.Obj? then
      Obj(map k | k in payload.fields.Keys + defaults.fields.Keys ::
            if k !in payload.fields then defaults.fields[k]
            else if k in defaults.fields then Defaults(payload.fields[k], defaults.fields[k])
            else payload.fields[k])
    else payload
  }

  // ---- The imperative algorithms -----------------------------------------

  method DeepMergeDefaults(payload: Json, defaults: Json) returns (merged: Json)
    requires payload.Obj? && defaults.Obj?
    ensures merged == Defaults(payload, defaults)
    decreases defaults
  {
    var fields := payload.fields;
    var pending := defaults.fields.Keys;
    while pending != {}
      invariant pending <= defaults.fields.Keys
      invariant fields.Keys == payload.fields.Keys + (defaults.fields.Keys - pending)
      invariant forall k | k in fields ::
        fields[k] == if k in pending then payload.fields[k] else Defaults(payload, defaults).fields[k]
      decreases pending
    {
      var key :| key in pending;
      var value := defaults.fields[key];
      pending := pending - {key};
      if key !in fields {
        fields := fields[key := value];
      } else if fields[key].Obj? && value.Obj? {
        var inner := DeepMergeDefaults(fields[key], value);
        fields := fields[key := inner];
      }
    }
    merged := Obj(fields);
  }

  method DeepMergeOverride(base: Json, over: Json) returns (merged: Json)
    requires base.Obj? && over.Obj?
    ensures merged == Override(base, over)
    decreases over
  {
    var fields := base.fields;
    var pending := over.fields.Keys;
    while pending != {}
      invariant pending <= over.fields.Keys
      invariant fields.Keys == base.fields.Keys + (over.fields.Keys - pending)
      invariant forall k | k in fields ::
        fields[k] == if k in pending then base.fields[k] else Override(base, over).fields[k]
      decreases pending
    {
      var key :| key in pending;
      var value := over.fields[key];
      pending := pending - {key};
      if key in fields && fields[key].Obj? && value.Obj? {
        var inner := DeepMergeOverride(fields[key], value);
        fields := fields[key := inner];
      } else {
        fields := fields[key := value];
      }
    }
    merged := Obj(fields);
  }

  // ---- Laws ---------------------------------------------------------------

  /** The two merges are the same operation with the arguments exchanged. */
  lemma {:induction false} DefaultsIsFlippedOverride(payload: Json, defaults: Json)
    ensures Defaults(payload, defaults) == Override(defaults, payload)
    decreases defaults
  {
    if payload.Obj? && defaults.Obj? {
      forall k | k in payload.fields && k in defaults.fields
        ensures Defaults(payload.fields[k], defaults.fields[k]) == Override(defaults.fields[k], payload.fields[k])
      {
        DefaultsIsFlippedOverride(payload.fields[k], defaults.fields[k]);
      }
    }
  }

  /** What the merge means path by path: the override's value is found (merged
      into the base where both reach), a leaf of the override hides everything
      below it in the base, and every other path shows the base. */
  lemma {:induction false} OverrideAtPath(base: Json, over: Json, path: seq<string>)
    ensures Lookup(Override(base, over), path) ==
            match Lookup(over, path) {
              case Some(v) => Some(match Lookup(base, path) { case Some(u) => Override(u, v) case None => v })
              case None => if Blocked(over, path) then None else Lookup(base, path)
            }
    decreases path
  {
    if path != [] && base.Obj? && over.Obj? {
      var k, rest := path[0], path[1..];
      if k in base.fields && k in over.fields {
        OverrideAtPath(base.fields[k], over.fields[k], rest);
      }
    }
  }

  /** `c` already decides everything `a` says, so laying `c` over `a` adds nothing. */
  predicate Covered(a: Json, c: Json)
    decreases a
  {
    a.Obj? && c.Obj? ==>
      forall k | k in a.fields :: k in c.fields && Covered(a.fields[k], c.fields[k])
  }

  lemma {:induction false} CoveredMeansAbsorbed(a: Json, c: Json)
    ensures Override(a, c) == c <==> Covered(a, c)
    decreases a
  {
    if a.Obj? && c.Obj? {
      forall k | k in a.fields && k in c.fields
        ensures Override(a.fields[k], c.fields[k]) == c.fields[k] <==> Covered(a.fields[k], c.fields[k])
      {
        CoveredMeansAbsorbed(a.fields[k], c.fields[k]);
      }
      var merged := Override(a, c);
      if merged == c {
        forall k | k in a.fields ensures k in c.fields && Covered(a.fields[k], c.fields[k]) {
          assert k in merged.fields;
        }
      }
      if Covered(a, c) {
        assert merged.fields.Keys == c.fields.Keys;
        assert merged.fields == c.fields;
      }
    }
  }

  /** Nowhere does an object of `a` meet a non-object of `b` and an object of
      `c`, unless that object of `c` covers the one of `a` anyway. */
  predicate NoClash(a: Json, b: Json, c: Json)
    decreases c
  {
    a.Obj? && c.Obj? ==>
      if b.Obj? then
        forall k | k in a.fields && k in b.fields && k in c.fields ::
          NoClash(a.fields[k], b.fields[k], c.fields[k])
      else Covered(a, c)
  }

  /** Override is associative on exactly the triples without a clash. */
  lemma {:induction false} OverrideAssociativeIff(a: Json, b: Json, c: Json)
    ensures Override(Override(a, b), c) == Override(a, Override(b, c)) <==> NoClash(a, b, c)
    decreases c
  {
    if a.Obj? && c.Obj? {
      if b.Obj? {
        var left, right := Override(Override(a, b), c), Override(a, Override(b, c));
        assert left.fields.Keys == right.fields.Keys == a.fields.Keys + b.fields.Keys + c.fields.Keys;
        forall k | k in left.fields
          ensures left.fields[k] == right.fields[k] <==>
                  (k in a.fields && k in b.fields && k in c.fields ==>
                     NoClash(a.fields[k], b.fields[k], c.fields[k]))
        {
          if k in a.fields && k in b.fields && k in c.fields {
            OverrideAssociativeIff(a.fields[k], b.fields[k], c.fields[k]);
          }
        }
        if left == right {
          assert forall k | k in left.fields :: left.fields[k] == right.fields[k];
        } else {
          assert left.fields != right.fields;
        }
      } else {
        CoveredMeansAbsorbed(a, c);
      }
    }
  }

  /** An object, a leaf and a disjoint object under one key: the smallest clash of documents. */
  lemma OverrideIsNotAssociative()
    ensures exists a: Json, b: Json, c: Json ::
      a.Obj? && b.Obj? && c.Obj? && Override(Override(a, b), c) != Override(a, Override(b, c))
  {
    var a, b, c := ClashUnder("k", "x", "y");
  }

  lemma ClashUnder(k: string, x: string, y: string) returns (a: Json, b: Json, c: Json)
    requires x != y
    ensures a.Obj? && b.Obj? && c.Obj? && Override(Override(a, b), c) != Override(a, Override(b, c))
  {
    a, b, c := Obj(map[k := Obj(map[x := Null])]), Obj(map[k := Null]), Obj(map[k := Obj(map[y := Null])]);
    assert x in a.fields[k].fields && x !in c.fields[k].fields;
    assert !NoClash(a.fields[k], b.fields[k], c.fields[k]);
    OverrideAssociativeIff(a, b, c);
  }

  // ---- Regrouping only adds -----------------------------------------------

  /** Every path of `x` is one of `y`, and where `x` has a leaf `y` has the same. */
  predicate Within(x: Json, y: Json)
    decreases x
  {
    if x.Obj? && y.Obj? then forall k | k in x.fields :: k in y.fields && Within(x.fields[k], y.fields[k])
    else x == y
  }

  lemma {:induction false} WithinItself(x: Json)
    ensures Within(x, x)
  {
    if x.Obj? {
      forall k | k in x.fields ensures Within(x.fields[k], x.fields[k]) {
        WithinItself(x.fields[k]);
      }
    }
  }

  lemma {:induction false} WithinChain(x: Json, y: Json, z: Json)
    requires Within(x, y) && Within(y, z)
    ensures Within(x, z)
    decreases x
  {
    if x.Obj? && y.Obj? && z.Obj? {
      forall k | k in x.fields ensures k in z.fields && Within(x.fields[k], z.fields[k]) {
        WithinChain(x.fields[k], y.fields[k], z.fields[k]);
      }
    }
  }

  lemma {:induction false} WithinBothWays(x: Json, y: Json)
    requires Within(x, y) && Within(y, x)
    ensures x == y
    decreases x
  {
    if x.Obj? && y.Obj? {
      forall k | k in x.fields ensures x.fields[k] == y.fields[k] {
        WithinBothWays(x.fields[k], y.fields[k]);
      }
      assert x.fields == y.fields;
    }
  }

  lemma {:induction false} OverWithin(a: Json, c: Json)
    requires a.Obj? && c.Obj?
    ensures Within(c, Override(a, c))
    decreases c
  {
    forall k | k in c.fields ensures Within(c.fields[k], Override(a, c).fields[k]) {
      WithinItself(c.fields[k]);
      if k in a.fields && a.fields[k].Obj? && c.fields[k].Obj? {
        OverWithin(a.fields[k], c.fields[k]);
      }
    }
  }

  /** Merging the two upper layers first can add paths and never loses any. */
  lemma {:induction false} RegroupingOnlyAdds(a: Json, b: Json, c: Json)
    ensures Within(Override(Override(a, b), c), Override(a, Override(b, c)))
    decreases c
  {
    var left, right := Override(Override(a, b), c), Override(a, Override(b, c));
    if a.Obj? && b.Obj? && c.Obj? {
      forall k | k in left.fields ensures k in right.fields && Within(left.fields[k], right.fields[k]) {
        WithinItself(left.fields[k]);
        if k in a.fields && k in b.fields && k in c.fields {
          RegroupingOnlyAdds(a.fields[k], b.fields[k], c.fields[k]);
        }
      }
    } else if a.Obj? && c.Obj? {
      OverWithin(a, c);
    } else {
      WithinItself(left);
    }
  }

  lemma {:induction false} OverrideIdempotent(base: Json, over: Json)
    ensures Override(Override(base, over), over) == Override(base, over)
    decreases over
  {
    if base.Obj? && over.Obj? {
      var once := Override(base, over);
      forall k | k in over.fields
        ensures Override(once.fields[k], over.fields[k]) == once.fields[k]
      {
        if k in base.fields {
          OverrideIdempotent(base.fields[k], over.fields[k]);
        } else {
          OverrideSelf(over.fields[k]);
        }
      }
      assert Override(once, over).fields == once.fields;
    } else if over.Obj? {
      OverrideSelf(over);
    }
  }

  lemma {:induction false} OverrideSelf(j: Json)
    ensures Override(j, j) == j
  {
    if j.Obj? {
      forall k | k in j.fields ensures Override(j.fields[k], j.fields[k]) == j.fields[k] {
        OverrideSelf(j.fields[k]);
      }
      assert Override(j, j).fields == j.fields;
    }
  }

  /** Filling a body from one merged set of defaults gives the same as filling
      it layer by layer, most specific layer first, on exactly the bodies with
      which the two layers do not clash. */
  lemma LayeredDefaultsIff(body: Json, specific: Json, general: Json)
    ensures Defaults(body, Override(general, specific)) == Defaults(Defaults(body, specific), general)
            <==> NoClash(general, specific, body)
  {
    DefaultsIsFlippedOverride(body, Override(general, specific));
    DefaultsIsFlippedOverride(body, specific);
    DefaultsIsFlippedOverride(Defaults(body, specific), general);
    OverrideAssociativeIff(general, specific, body);
  }

  lemma DefaultsIdempotent(payload: Json, defaults: Json)
    ensures Defaults(Defaults(payload, defaults), defaults) == Defaults(payload, defaults)
  {
    DefaultsIsFlippedOverride(payload, defaults);
    DefaultsIsFlippedOverride(Defaults(payload, defaults), defaults);
    OverrideAbsorbs(defaults, payload);
  }

  lemma {:induction false} OverrideAbsorbs(base: Json, over: Json)
    ensures Override(base, Override(base, over)) == Override(base, over)
    decreases over
  {
    if base.Obj? && over.Obj? {
      var once := Override(base, over);
      forall k | k in base.fields && k in once.fields
        ensures Override(base.fields[k], once.fields[k]) == once.fields[k]
      {
        if k in over.fields {
          OverrideAbsorbs(base.fields[k], over.fields[k]);
        } else {
          OverrideSelf(base.fields[k]);
        }
      }
      assert Override(base, once).fields == once.fields;
    }
  }
}
