/**
 * What the resolution relation of `processImagePrompts` guarantees: a single result when no two
 * prompt fields of one object share a companion key, completeness and non-destructiveness at every
 * depth along paths that do not pass through a companion key, and the concrete results the
 * generated documents rely on.
 */
module ResolutionProperties {
  import opened Wrappers
  import opened JsText
  import opened Json
  import opened AspectRatio
  import opened ImageResolver
  import opened PromptResolution

  /** No two prompt fields of `m` share a companion key. */
  predicate LevelNoClash(m: map<string, Json>)
  {
    forall k1, k2 :: k1 in m && k2 in m && IsPromptField(m, k1) && IsPromptField(m, k2) && UrlKey(k1) == UrlKey(k2) ==> k1 == k2
  }

  /** No object anywhere in `j` has two prompt fields sharing a companion key. */
  predicate NoClash(j: Json)
    decreases j
  {
    match j
    case Arr(a) => forall i :: 0 <= i < |a| ==> NoClash(a[i])
    case Obj(m) => LevelNoClash(m) && forall k :: k in m ==> NoClash(m[k])
    case _ => true
  }

  /** Without a clash, the companion key of each prompt field holds exactly that field's image. */
  lemma CompanionIsFieldImage(m: map<string, Json>, n: map<string, Json>, k: string,
                              designTypeId: string, resolve: Resolver)
    requires LevelNoClash(m) && LevelResolved(m, n, designTypeId, resolve)
    requires IsPromptField(m, k)
    ensures UrlKey(k) in n && n[UrlKey(k)] == FieldImage(m, k, designTypeId, resolve)
  {
    var c := UrlKey(k);
    assert c in CompanionKeys(m);
    var k' :| IsPromptField(m, k') && UrlKey(k') == c && n[c] == FieldImage(m, k', designTypeId, resolve);
  }

  /** The only keys an object gains are companion keys of its prompt fields. */
  lemma NewKeysAreCompanions(m: map<string, Json>, n: map<string, Json>, designTypeId: string, resolve: Resolver)
    requires LevelResolved(m, n, designTypeId, resolve)
    ensures m.Keys <= n.Keys
    ensures forall c :: c in n && c !in m ==> exists k :: IsPromptField(m, k) && UrlKey(k) == c
  {
  }

  /** Without a clash anywhere, a document has exactly one resolution. */
  lemma {:induction false} ResolutionUnique(j: Json, r1: Json, r2: Json, designTypeId: string, resolve: Resolver)
    requires NoClash(j)
    requires IsResolution(j, r1, designTypeId, resolve) && IsResolution(j, r2, designTypeId, resolve)
    ensures r1 == r2
    decreases j
  {
    match j
    case Arr(a) =>
      forall i | 0 <= i < |a|
        ensures r1.items[i] == r2.items[i]
      {
        ResolutionUnique(a[i], r1.items[i], r2.items[i], designTypeId, resolve);
      }
      assert r1.items == r2.items;
    case Obj(m) =>
      var n1, n2 := r1.fields, r2.fields;
      forall k | k in n1
        ensures n1[k] == n2[k]
      {
        if k in CompanionKeys(m) {
          var k1 :| IsPromptField(m, k1) && UrlKey(k1) == k && n1[k] == FieldImage(m, k1, designTypeId, resolve);
          var k2 :| IsPromptField(m, k2) && UrlKey(k2) == k && n2[k] == FieldImage(m, k2, designTypeId, resolve);
        } else {
          ResolutionUnique(m[k], n1[k], n2[k], designTypeId, resolve);
        }
      }
      assert n1 == n2;
    case _ =>
  }

  /** Every object-key step of `p`, taken from `j`, exists and is no companion key of its object. */
  predicate Intact(j: Json, p: seq<Step>)
    decreases |p|
  {
    if p == [] then true
    else match p[0]
      case Key(k) =>
        j.Obj? && k in j.fields && k !in CompanionKeys(j.fields) && Intact(j.fields[k], p[1..])
      case Index(i) =>
        j.Arr? && i < |j.items| && Intact(j.items[i], p[1..])
  }

  /** Following `p + q` is following `p`, then `q`. */
  lemma {:induction false} AtConcat(j: Json, p: seq<Step>, q: seq<Step>)
    ensures At(j, p + q) == if At(j, p).Some? then At(At(j, p).value, q) else None
    decreases |p|
  {
    if p != [] {
      assert (p + q)[0] == p[0] && (p + q)[1..] == p[1..] + q;
      match p[0]
      case Key(k) =>
        if j.Obj? && k in j.fields {
          AtConcat(j.fields[k], p[1..], q);
        }
      case Index(i) =>
        if j.Arr? && i < |j.items| {
          AtConcat(j.items[i], p[1..], q);
        }
    } else {
      assert p + q == q;
    }
  }

  /**
   * Along an intact path the resolved document has a value wherever the input has one, and that
   * value is the resolution of the input's value.
   */
  lemma {:induction false} ResolutionAlongPath(j: Json, r: Json, p: seq<Step>, designTypeId: string, resolve: Resolver)
    requires IsResolution(j, r, designTypeId, resolve) && Intact(j, p)
    ensures At(j, p).Some? && At(r, p).Some?
    ensures IsResolution(At(j, p).value, At(r, p).value, designTypeId, resolve)
    decreases |p|
  {
    if p != [] {
      match p[0]
      case Key(k) =>
        ResolutionAlongPath(j.fields[k], r.fields[k], p[1..], designTypeId, resolve);
      case Index(i) =>
        ResolutionAlongPath(j.items[i], r.items[i], p[1..], designTypeId, resolve);
    }
  }

  /** The absence of clashes holds of every value inside the document too. */
  lemma {:induction false} NoClashAlongPath(j: Json, p: seq<Step>)
    requires NoClash(j) && Intact(j, p)
    ensures At(j, p).Some? && NoClash(At(j, p).value)
    decreases |p|
  {
    if p != [] {
      match p[0]
      case Key(k) => NoClashAlongPath(j.fields[k], p[1..]);
      case Index(i) => NoClashAlongPath(j.items[i], p[1..]);
    }
  }

  /**
   * Completeness at any depth: for an object reached along an intact path, each prompt field's
   * companion key in the result holds the image of the field's text, in the shape its key and the
   * design type call for.
   */
  lemma DeepCompleteness(j: Json, r: Json, p: seq<Step>, m: map<string, Json>, k: string,
                         designTypeId: string, resolve: Resolver)
    requires NoClash(j) && IsResolution(j, r, designTypeId, resolve) && Intact(j, p)
    requires At(j, p) == Some(Obj(m)) && IsPromptField(m, k)
    ensures At(r, p + [Key(UrlKey(k))]) == Some(Str(resolve(m[k].s, RatioFor(designTypeId, k))))
  {
    ResolutionAlongPath(j, r, p, designTypeId, resolve);
    NoClashAlongPath(j, p);
    var n := At(r, p).value.fields;
    CompanionIsFieldImage(m, n, k, designTypeId, resolve);
    AtConcat(r, p, [Key(UrlKey(k))]);
  }

  /**
   * Non-destructiveness at any depth: along an intact path every key of the input is still present
   * in the result, and a scalar there is unchanged.
   */
  lemma DeepPreservation(j: Json, r: Json, p: seq<Step>, designTypeId: string, resolve: Resolver)
    requires IsResolution(j, r, designTypeId, resolve) && Intact(j, p)
    ensures At(j, p).Some? && At(r, p).Some?
    ensures At(j, p).value.Obj? ==> At(r, p).value.Obj? && At(j, p).value.fields.Keys <= At(r, p).value.fields.Keys
    ensures At(j, p).value.Arr? ==> At(r, p).value.Arr? && |At(j, p).value.items| == |At(r, p).value.items|
    ensures !IsContainer(At(j, p).value) ==> At(r, p) == At(j, p)
  {
    ResolutionAlongPath(j, r, p, designTypeId, resolve);
    ResolutionKeepsKind(At(j, p).value, At(r, p).value, designTypeId, resolve);
  }

  /**
   * The path condition cannot be dropped: a companion key overwrites whatever the object already
   * held under it (an `imageUrl` object beside an `imagePrompt` text, say), so every path below it
   * is gone from the result.
   */
  lemma OverwrittenCompanionLosesPath(m: map<string, Json>, r: Json, k: string, x: string,
                                      designTypeId: string, resolve: Resolver)
    requires IsResolution(Obj(m), r, designTypeId, resolve)
    requires IsPromptField(m, k) && UrlKey(k) in m && m[UrlKey(k)].Obj? && x in m[UrlKey(k)].fields
    ensures At(Obj(m), [Key(UrlKey(k)), Key(x)]) == Some(m[UrlKey(k)].fields[x])
    ensures At(r, [Key(UrlKey(k)), Key(x)]) == None
  {
    var c := UrlKey(k);
    assert c in CompanionKeys(m);
    var k' :| IsPromptField(m, k') && UrlKey(k') == c && r.fields[c] == FieldImage(m, k', designTypeId, resolve);
    AtTwoKeys(Obj(m), c, x);
    AtTwoKeys(r, c, x);
  }

  /** Following two object keys. */
  lemma AtTwoKeys(j: Json, a: string, b: string)
    ensures At(j, [Key(a), Key(b)]) == if j.Obj? && a in j.fields then Get(j.fields[a], b) else None
  {
    var p := [Key(a), Key(b)];
    assert p[1..] == [Key(b)] && [Key(b)][1..] == [];
    if j.Obj? && a in j.fields {
      var v := j.fields[a];
      assert At(j, p) == At(v, [Key(b)]);
      if v.Obj? && b in v.fields {
        assert At(v, [Key(b)]) == At(v.fields[b], []);
      }
    }
  }

  /** A prompt key whose value is empty or no string gets no companion unless something else writes it. */
  lemma NoCompanionForUnusablePrompt(m: map<string, Json>, n: map<string, Json>, k: string,
                                     designTypeId: string, resolve: Resolver)
    requires LevelResolved(m, n, designTypeId, resolve)
    requires k in m && IsPromptKey(k) && !IsPromptField(m, k)
    requires UrlKey(k) !in m
    requires forall k' :: IsPromptField(m, k') ==> UrlKey(k') != UrlKey(k)
    ensures UrlKey(k) !in n
  {
  }

  /** Adding one key to the keys counted adds it to the prompt fields exactly when it is one. */
  lemma PromptKeysStep(m: map<string, Json>, keys: set<string>, key: string)
    ensures IsPromptField(m, key) ==> PromptKeysIn(m, keys + {key}) == PromptKeysIn(m, keys) + {key}
    ensures !IsPromptField(m, key) ==> PromptKeysIn(m, keys + {key}) == PromptKeysIn(m, keys)
  {
  }

  /** Companion keys are as many as prompt fields when no two of them share one. */
  lemma {:induction false} CompanionCount(m: map<string, Json>, keys: set<string>)
    requires LevelNoClash(m)
    ensures |CompanionsOf(m, keys)| == |PromptKeysIn(m, keys)|
    decreases keys
  {
    if keys == {} {
      assert CompanionsOf(m, keys) == {} && PromptKeysIn(m, keys) == {};
    } else {
      var x :| x in keys;
      var rest := keys - {x};
      CompanionCount(m, rest);
      assert rest + {x} == keys;
      CompanionsStep(m, rest, x);
      PromptKeysStep(m, rest, x);
      if IsPromptField(m, x) {
        forall y | y in rest && IsPromptField(m, y)
          ensures UrlKey(y) != UrlKey(x)
        {
          assert y != x;
        }
        assert x !in PromptKeysIn(m, rest);
      }
    }
  }

  /**
   * Without clashes and without pre-existing companion keys, an object gains exactly one key per
   * prompt field.
   */
  lemma KeyCount(m: map<string, Json>, n: map<string, Json>, designTypeId: string, resolve: Resolver)
    requires LevelNoClash(m) && LevelResolved(m, n, designTypeId, resolve)
    requires forall k :: IsPromptField(m, k) ==> UrlKey(k) !in m
    ensures |n.Keys| == |m.Keys| + |PromptKeysIn(m, m.Keys)|
  {
    CompanionCount(m, m.Keys);
    assert m.Keys !! CompanionKeys(m);
  }

  /** A key whose last character is no `t` or `T` is no prompt key. */
  lemma NoPromptKeyWithoutFinalT(key: string)
    requires |key| == 0 || LowerChar(key[|key| - 1]) != 't'
    ensures !IsPromptKey(key)
  {
  }

  /** An object with a single prompt key, holding a non-empty string, has that key's companion alone. */
  lemma SingleCompanion(m: map<string, Json>, k: string)
    requires IsPromptField(m, k)
    requires forall k' :: k' in m && k' != k ==> !IsPromptKey(k')
    ensures CompanionKeys(m) == {UrlKey(k)} && LevelNoClash(m)
  {
  }

  /**
   * An object of scalars with a single prompt field, and no key already named like its companion,
   * gains exactly that companion and keeps every other value.
   */
  lemma SinglePromptObject(m: map<string, Json>, r: Json, k: string, designTypeId: string, resolve: Resolver)
    requires IsResolution(Obj(m), r, designTypeId, resolve)
    requires IsPromptField(m, k) && UrlKey(k) !in m
    requires forall k' :: k' in m ==> !IsContainer(m[k']) && (k' != k ==> !IsPromptKey(k'))
    ensures r.Obj? && r.fields.Keys == m.Keys + {UrlKey(k)}
    ensures r.fields[UrlKey(k)] == Str(resolve(m[k].s, RatioFor(designTypeId, k)))
    ensures forall k' :: k' in m ==> r.fields[k'] == m[k']
  {
    SingleCompanion(m, k);
    CompanionIsFieldImage(m, r.fields, k, designTypeId, resolve);
    forall k' | k' in m
      ensures r.fields[k'] == m[k']
    {
      ResolutionKeepsKind(m[k'], r.fields[k'], designTypeId, resolve);
    }
  }

  /** The business card below is an object of scalars whose only prompt field is `backgroundImagePrompt`. */
  lemma BusinessCardShape(m: map<string, Json>)
    requires m == map["name" := Str("Anna"), "backgroundImagePrompt" := Str("soft waves")]
    ensures IsPromptField(m, "backgroundImagePrompt") && m["backgroundImagePrompt"].s == "soft waves"
    ensures UrlKey("backgroundImagePrompt") == "backgroundImageUrl" && "backgroundImageUrl" !in m
    ensures RatioFor("business-card", "backgroundImagePrompt") == Tall
    ensures forall k' :: k' in m ==> !IsContainer(m[k']) && (k' != "backgroundImagePrompt" ==> !IsPromptKey(k'))
  {
    BackgroundCompanionKey();
    BusinessCardBackgroundIsTall();
    NoPromptKeyWithoutFinalT("name");
  }

  /** A business card: its prompt field gains a portrait image under `backgroundImageUrl`. */
  lemma BusinessCardExample(m: map<string, Json>, r: Json, resolve: Resolver)
    requires m == map["name" := Str("Anna"), "backgroundImagePrompt" := Str("soft waves")]
    requires IsResolution(Obj(m), r, "business-card", resolve)
    ensures r.Obj?
    ensures r.fields.Keys == m.Keys + {"backgroundImageUrl"}
    ensures r.fields["backgroundImageUrl"] == Str(resolve("soft waves", Tall))
    ensures forall k :: k in m ==> r.fields[k] == m[k]
  {
    BusinessCardShape(m);
    SinglePromptObject(m, r, "backgroundImagePrompt", "business-card", resolve);
  }

  /** With an image backend that always fails, every companion key holds the placeholder of its shape. */
  lemma FailingBackendGivesPlaceholders(m: map<string, Json>, n: map<string, Json>, k: string,
                                        designTypeId: string, backend: ImageBackend)
    requires forall q, i :: backend(q, i).Rejected?
    requires LevelNoClash(m) && LevelResolved(m, n, designTypeId, ResolverOf(backend))
    requires IsPromptField(m, k)
    ensures n[UrlKey(k)] == Str(Placeholder(RatioFor(designTypeId, k)))
  {
    CompanionIsFieldImage(m, n, k, designTypeId, ResolverOf(backend));
    AlwaysFailingBackend(backend, m[k].s, RatioFor(designTypeId, k));
  }
}
