/**
 * `processImagePrompts`: the recursive walk that, at every object of a document, first resolves
 * the object- and array-valued children and then gives every prompt field (a key ending in
 * "prompt", in any case, holding a non-empty string) a companion "…Url" field with the image
 * generated for it.
 *
 * The source starts the image requests of one object concurrently and writes each companion key
 * when its request completes. When two prompt keys of one object share a companion key
 * (`imagePrompt` and `imagePROMPT` both give `imageUrl`) the surviving value depends on which
 * request completes last. The model therefore specifies the walk by a relation, `IsResolution`,
 * that admits each such completion order, and proves that it has a single result when no two
 * prompt keys of one object share a companion key.
 */
module PromptResolution {
  import opened JsText
  import opened Json
  import opened AspectRatio
  import opened ImageResolver

  /** `key.toLowerCase().endsWith('prompt')`. */
  predicate IsPromptKey(key: string)
  {
    EndsWith(Lower(key), "prompt")
  }

  /** `key.replace(/prompt$/i, 'Url')`: a trailing "prompt", in any case, becomes "Url". */
  function UrlKey(key: string): string
  {
    if IsPromptKey(key) then key[..|key| - 6] + "Url" else key
  }

  /** A companion key keeps the prompt key's prefix, ends in "Url", and is itself no prompt key. */
  lemma CompanionKeyShape(key: string)
    requires IsPromptKey(key)
    ensures UrlKey(key) == key[..|key| - 6] + "Url"
    ensures EndsWith(UrlKey(key), "Url") && !IsPromptKey(UrlKey(key)) && UrlKey(key) != key
  {
    var u := UrlKey(key);
    assert Lower(u)[|u| - 1] == 'l';
    assert Lower(key)[|key| - 1] == 't';
  }

  /** Two prompt keys share a companion key exactly when they agree apart from the suffix's case. */
  lemma CompanionKeysCollide(key1: string, key2: string)
    requires IsPromptKey(key1) && IsPromptKey(key2)
    ensures UrlKey(key1) == UrlKey(key2) <==> key1[..|key1| - 6] == key2[..|key2| - 6]
  {
    if UrlKey(key1) == UrlKey(key2) {
      assert key1[..|key1| - 6] == UrlKey(key1)[..|UrlKey(key1)| - 3];
      assert key2[..|key2| - 6] == UrlKey(key2)[..|UrlKey(key2)| - 3];
    }
  }

  /** The key derivations the generated documents rely on. */
  lemma CompanionKeyExamples()
    ensures UrlKey("imagePrompt") == "imageUrl"
    ensures UrlKey("avatarPrompt") == "avatarUrl"
    ensures UrlKey("colorLogoPrompt") == "colorLogoUrl"
  {
    assert Lower("imagePrompt")[5..] == "prompt";
    assert Lower("avatarPrompt")[6..] == "prompt";
    assert Lower("colorLogoPrompt")[9..] == "prompt";
  }

  /** The companion key of the background prompt most generated documents carry. */
  lemma BackgroundCompanionKey()
    ensures UrlKey("backgroundImagePrompt") == "backgroundImageUrl"
  {
    assert Lower("backgroundImagePrompt")[15..] == "prompt";
  }

  /** A key the second loop resolves: a prompt key holding a non-empty string. */
  predicate IsPromptField(m: map<string, Json>, k: string)
  {
    k in m && IsPromptKey(k) && m[k].Str? && m[k].s != ""
  }

  /** The prompt fields among the keys `keys` of `m`. */
  function PromptKeysIn(m: map<string, Json>, keys: set<string>): set<string>
  {
    set k | k in keys && IsPromptField(m, k)
  }

  /** The companion keys written for the prompt fields among `keys`. */
  function CompanionsOf(m: map<string, Json>, keys: set<string>): set<string>
  {
    set k | k in keys && IsPromptField(m, k) :: UrlKey(k)
  }

  /** Every companion key `m`'s resolution writes. */
  function CompanionKeys(m: map<string, Json>): set<string>
  {
    CompanionsOf(m, m.Keys)
  }

  /** An image resolver: the reference `generateImage(prompt, ratio)` comes back with. */
  type Resolver = (string, AspectRatio) -> string

  /** The resolver `generateImage` is for a given image backend. */
  function ResolverOf(backend: ImageBackend): Resolver
  {
    (prompt: string, ratio: AspectRatio) => ImageFor(backend, prompt, ratio)
  }

  /** The image reference written for prompt field `k` of `m`, shaped by the aspect-ratio policy. */
  function FieldImage(m: map<string, Json>, k: string, designTypeId: string, resolve: Resolver): Json
    requires IsPromptField(m, k)
  {
    Str(resolve(m[k].s, RatioFor(designTypeId, k)))
  }

  /**
   * One object level resolved: `n` has the keys of `m` plus the companion keys, and each companion
   * key holds the image of a prompt field it is the companion of.
   */
  ghost predicate LevelResolved(m: map<string, Json>, n: map<string, Json>, designTypeId: string, resolve: Resolver)
  {
    && n.Keys == m.Keys + CompanionKeys(m)
    && forall c :: c in CompanionKeys(m) ==>
         exists k :: IsPromptField(m, k) && UrlKey(k) == c && n[c] == FieldImage(m, k, designTypeId, resolve)
  }

  /**
   * `r` is a result `processImagePrompts(j, designTypeId)` can return: arrays map element by
   * element; an object keeps every key, gains the companion keys of its prompt fields, and every
   * key that is no companion key holds the resolution of its old value; a scalar is returned as is.
   */
  ghost predicate IsResolution(j: Json, r: Json, designTypeId: string, resolve: Resolver)
    decreases j
  {
    match j
    case Arr(a) =>
      && r.Arr? && |r.items| == |a|
      && forall i :: 0 <= i < |a| ==> IsResolution(a[i], r.items[i], designTypeId, resolve)
    case Obj(m) =>
      && r.Obj? && LevelResolved(m, r.fields, designTypeId, resolve)
      && forall k :: k in m && k !in CompanionKeys(m) ==> IsResolution(m[k], r.fields[k], designTypeId, resolve)
    case _ => r == j
  }

  /** Resolution keeps the kind of a value: containers stay containers of the same kind, scalars stay put. */
  lemma ResolutionKeepsKind(j: Json, r: Json, designTypeId: string, resolve: Resolver)
    requires IsResolution(j, r, designTypeId, resolve)
    ensures j.Arr? <==> r.Arr?
    ensures j.Obj? <==> r.Obj?
    ensures !IsContainer(j) ==> r == j
  {
  }

  /** `processImagePrompts(data, designTypeId)`, run sequentially. */
  method ProcessImagePrompts(data: Json, designTypeId: string, backend: ImageBackend) returns (r: Json)
    ensures IsResolution(data, r, designTypeId, ResolverOf(backend))
    decreases data, 2
  {
    match data
    case Arr(a) =>
      var items: seq<Json> := [];
      var i := 0;
      while i < |a|
        invariant 0 <= i <= |a| && |items| == i
        invariant forall j :: 0 <= j < i ==> IsResolution(a[j], items[j], designTypeId, ResolverOf(backend))
      {
        var item := ProcessImagePrompts(a[i], designTypeId, backend);
        items := items + [item];
        i := i + 1;
      }
      r := Arr(items);
    case Obj(m) =>
      var fields := ResolveObject(m, designTypeId, backend);
      r := Obj(fields);
    case _ =>
      r := data;
  }

  /** The object case: `{ ...data }`, the loop over container children, the loop over prompt fields. */
  method ResolveObject(m: map<string, Json>, designTypeId: string, backend: ImageBackend)
    returns (newData: map<string, Json>)
    ensures IsResolution(Obj(m), Obj(newData), designTypeId, ResolverOf(backend))
    decreases Obj(m), 1
  {
    var copied := ResolveChildren(m, designTypeId, backend);
    forall k | k in m
      ensures IsPromptField(copied, k) <==> IsPromptField(m, k)
      ensures IsPromptField(m, k) ==> copied[k] == m[k]
    {
      ResolutionKeepsKind(m[k], copied[k], designTypeId, ResolverOf(backend));
    }
    assert SamePromptFields(m, copied);
    newData := WriteCompanions(m, copied, designTypeId, backend);
  }

  /** The first loop: every object- or array-valued child is replaced by its resolved form. */
  method ResolveChildren(m: map<string, Json>, designTypeId: string, backend: ImageBackend)
    returns (newData: map<string, Json>)
    ensures newData.Keys == m.Keys
    ensures forall k :: k in m ==> IsResolution(m[k], newData[k], designTypeId, ResolverOf(backend))
    decreases Obj(m), 0
  {
    newData := m;
    var todo := m.Keys;
    while todo != {}
      invariant todo <= m.Keys && newData.Keys == m.Keys
      invariant forall k :: k in m && k !in todo ==> IsResolution(m[k], newData[k], designTypeId, ResolverOf(backend))
      invariant forall k :: k in todo ==> newData[k] == m[k]
      decreases |todo|
    {
      var key :| key in todo;
      if IsContainer(newData[key]) {
        var child := ProcessImagePrompts(m[key], designTypeId, backend);
        newData := newData[key := child];
      }
      todo := todo - {key};
    }
  }

  /** Adding one key to the keys done adds its companion key exactly when it is a prompt field. */
  lemma CompanionsStep(m: map<string, Json>, done: set<string>, key: string)
    ensures IsPromptField(m, key) ==> CompanionsOf(m, done + {key}) == CompanionsOf(m, done) + {UrlKey(key)}
    ensures !IsPromptField(m, key) ==> CompanionsOf(m, done + {key}) == CompanionsOf(m, done)
  {
  }

  /** The companions are written for prompt fields, and no prompt key is a companion key. */
  lemma PromptKeyIsNoCompanion(m: map<string, Json>, done: set<string>, key: string)
    requires IsPromptKey(key)
    ensures key !in CompanionsOf(m, done)
  {
    if key in CompanionsOf(m, done) {
      var k :| k in done && IsPromptField(m, k) && UrlKey(k) == key;
      CompanionKeyShape(k);
    }
  }

  /**
   * The layout of the second loop's state after the keys `done`: `source` maps each companion key
   * written so far to the prompt field it was written for, and every other key still holds its
   * copied value.
   */
  ghost predicate Layout(m: map<string, Json>, copied: map<string, Json>, newData: map<string, Json>,
                         done: set<string>, source: map<string, string>)
  {
    && copied.Keys == m.Keys
    && newData.Keys == m.Keys + source.Keys
    && source.Keys == CompanionsOf(m, done)
    && (forall k :: k in m && k !in source ==> newData[k] == copied[k])
  }

  /** Every companion key written so far holds the image of the prompt field it was written for. */
  ghost predicate Records(m: map<string, Json>, newData: map<string, Json>, source: map<string, string>,
                          designTypeId: string, resolve: Resolver)
  {
    forall c :: c in source ==> Wrote(m, newData, c, source[c], designTypeId, resolve)
  }

  /** Companion key `c` holds the image of prompt field `k`, whose companion it is. */
  ghost predicate Wrote(m: map<string, Json>, n: map<string, Json>, c: string, k: string, designTypeId: string, resolve: Resolver)
  {
    IsPromptField(m, k) && UrlKey(k) == c && c in n && n[c] == FieldImage(m, k, designTypeId, resolve)
  }

  /** A key that is no prompt field leaves the layout as it was. */
  lemma LayoutSkip(m: map<string, Json>, copied: map<string, Json>, newData: map<string, Json>,
                   done: set<string>, source: map<string, string>, key: string)
    requires Layout(m, copied, newData, done, source)
    requires !IsPromptField(m, key)
    ensures Layout(m, copied, newData, done + {key}, source)
  {
    CompanionsStep(m, done, key);
  }

  /** Writing a prompt field's companion key adds that key to the written ones and changes no other key. */
  lemma LayoutWrite(m: map<string, Json>, copied: map<string, Json>, newData: map<string, Json>,
                    done: set<string>, source: map<string, string>, key: string, image: Json)
    requires Layout(m, copied, newData, done, source)
    requires IsPromptField(m, key)
    ensures Layout(m, copied, newData[UrlKey(key) := image], done + {key}, source[UrlKey(key) := key])
  {
    var n := newData[UrlKey(key) := image];
    var src := source[UrlKey(key) := key];
    assert src.Keys == CompanionsOf(m, done + {key}) by {
      CompanionsStep(m, done, key);
    }
    assert n.Keys == m.Keys + src.Keys;
    forall k | k in m && k !in src
      ensures n[k] == copied[k]
    {
      assert k != UrlKey(key) && k !in source;
    }
  }

  /** After the write, every recorded companion key still holds the image of its prompt field. */
  lemma RecordsWrite(m: map<string, Json>, newData: map<string, Json>, source: map<string, string>,
                     key: string, image: Json, designTypeId: string, resolve: Resolver)
    requires Records(m, newData, source, designTypeId, resolve)
    requires IsPromptField(m, key) && image == FieldImage(m, key, designTypeId, resolve)
    ensures Records(m, newData[UrlKey(key) := image], source[UrlKey(key) := key], designTypeId, resolve)
  {
    var n := newData[UrlKey(key) := image];
    var src := source[UrlKey(key) := key];
    forall c | c in src
      ensures Wrote(m, n, c, src[c], designTypeId, resolve)
    {
      if c != UrlKey(key) {
        assert Wrote(m, newData, c, source[c], designTypeId, resolve);
      }
    }
  }

  /** The copy has the original's keys and the same prompt fields, holding the same texts. */
  ghost predicate SamePromptFields(m: map<string, Json>, copied: map<string, Json>)
  {
    && copied.Keys == m.Keys
    && (forall k :: k in m ==> (IsPromptField(copied, k) <==> IsPromptField(m, k)))
    && (forall k :: IsPromptField(m, k) ==> copied[k] == m[k])
  }

  /**
   * A key not yet visited still holds its copied value, so the loop's prompt-field test on the
   * copy agrees with the test on the original object.
   */
  lemma UnvisitedKey(m: map<string, Json>, copied: map<string, Json>, newData: map<string, Json>,
                     done: set<string>, source: map<string, string>, key: string)
    requires Layout(m, copied, newData, done, source) && SamePromptFields(m, copied)
    requires key in m
    ensures (IsPromptKey(key) && newData[key].Str? && newData[key].s != "") == IsPromptField(m, key)
    ensures IsPromptField(m, key) ==> newData[key] == m[key]
  {
    if IsPromptKey(key) {
      PromptKeyIsNoCompanion(m, done, key);
    }
  }

  /** Once every key is visited, the companion keys written are exactly the level's resolution. */
  lemma AllVisited(m: map<string, Json>, copied: map<string, Json>, newData: map<string, Json>,
                   source: map<string, string>, designTypeId: string, resolve: Resolver)
    requires Layout(m, copied, newData, m.Keys, source)
    requires Records(m, newData, source, designTypeId, resolve)
    ensures LevelResolved(m, newData, designTypeId, resolve)
    ensures forall k :: k in m && k !in CompanionKeys(m) ==> newData[k] == copied[k]
  {
    forall c | c in CompanionKeys(m)
      ensures exists k :: IsPromptField(m, k) && UrlKey(k) == c && newData[c] == FieldImage(m, k, designTypeId, resolve)
    {
      assert Wrote(m, newData, c, source[c], designTypeId, resolve);
    }
  }

  /**
   * The second loop: every prompt field of the copy gets its companion key set to the image
   * generated for it. Keys are taken in an arbitrary order, which stands for the arbitrary order in
   * which the concurrent image requests complete.
   */
  method WriteCompanions(m: map<string, Json>, copied: map<string, Json>, designTypeId: string, backend: ImageBackend)
    returns (newData: map<string, Json>)
    requires SamePromptFields(m, copied)
    ensures LevelResolved(m, newData, designTypeId, ResolverOf(backend))
    ensures forall k :: k in m && k !in CompanionKeys(m) ==> newData[k] == copied[k]
  {
    newData := copied;
    var keys := m.Keys;
    var todo := keys;
    ghost var done: set<string> := {};
    ghost var source: map<string, string> := map[];
    while todo != {}
      invariant todo <= keys && done == keys - todo
      invariant Layout(m, copied, newData, done, source)
      invariant Records(m, newData, source, designTypeId, ResolverOf(backend))
      decreases |todo|
    {
      var key :| key in todo;
      newData, source := VisitKey(m, copied, newData, done, source, key, designTypeId, backend);
      done := done + {key};
      todo := todo - {key};
    }
    AllVisited(m, copied, newData, source, designTypeId, ResolverOf(backend));
  }

  /**
   * One turn of the second loop: when `key` holds a non-empty prompt, generate its image and write
   * it under the companion key.
   */
  method VisitKey(m: map<string, Json>, copied: map<string, Json>, newData: map<string, Json>,
                  ghost done: set<string>, ghost source: map<string, string>, key: string,
                  designTypeId: string, backend: ImageBackend)
    returns (written: map<string, Json>, ghost recorded: map<string, string>)
    requires SamePromptFields(m, copied) && key in m
    requires Layout(m, copied, newData, done, source)
    requires Records(m, newData, source, designTypeId, ResolverOf(backend))
    ensures Layout(m, copied, written, done + {key}, recorded)
    ensures Records(m, written, recorded, designTypeId, ResolverOf(backend))
  {
    UnvisitedKey(m, copied, newData, done, source, key);
    if IsPromptKey(key) && newData[key].Str? && newData[key].s != "" {
      var urlKey := UrlKey(key);
      var aspectRatio := RatioFor(designTypeId, key);
      var url := GenerateImage(backend, newData[key].s, aspectRatio);
      LayoutWrite(m, copied, newData, done, source, key, Str(url));
      RecordsWrite(m, newData, source, key, Str(url), designTypeId, ResolverOf(backend));
      written, recorded := newData[urlKey := Str(url)], source[urlKey := key];
    } else {
      LayoutSkip(m, copied, newData, done, source, key);
      written, recorded := newData, source;
    }
  }
}
