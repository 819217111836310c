/**
 * Response normalisation for the upstream API's JSON:API compound documents: resource
 * identifier objects in an animal's `relationships` are resolved against the document's
 * top-level `included` member, breed names are joined, and pictures are ordered by their
 * `order` attribute to pick the primary image.
 */
module JsonApi {
  import opened Wrappers
  import opened Php
  import opened Sorting

  /** A resource identifier object: `{type, id}`. */
  datatype Ref = Ref(kind: string, id: string)

  /** A resource object: an animal in `data`, or a breed, picture, organization or location in `included`. */
  datatype Resource = Resource(kind: string, id: string, attrs: Attrs, rels: map<string, seq<Ref>>)

  /** The `meta` member of a search response; a missing entry is None. */
  datatype Meta = Meta(count: Option<int>, countReturned: Option<int>, pageReturned: Option<int>, pages: Option<int>)

  const NoMeta := Meta(None, None, None, None)

  /** A document whose primary data is a list (searches, breed lists); a missing `included` is []. */
  datatype ListDoc = ListDoc(data: Option<seq<Resource>>, included: seq<Resource>, meta: Meta)

  /** A document whose primary data is one resource (animal details); a null or empty `data` is None. */
  datatype ItemDoc = ItemDoc(data: Option<Resource>, included: seq<Resource>)

  predicate Matches(item: Resource, ref: Ref) {
    item.kind == ref.kind && item.id == ref.id
  }

  /** `$animal['relationships'][$name]['data']`, [] when absent. */
  function Refs(animal: Resource, name: string): seq<Ref> {
    if name in animal.rels then animal.rels[name] else []
  }

  /** The first entry of `included[from..]` that `ref` identifies. */
  function FirstMatch(ref: Ref, included: seq<Resource>, from: nat): (r: Option<Resource>)
    requires from <= |included|
    ensures r.None? <==> forall i :: from <= i < |included| ==> !Matches(included[i], ref)
    ensures r.Some? ==>
      exists k :: (from <= k < |included| && included[k] == r.value && Matches(r.value, ref)
        && forall i :: from <= i < k ==> !Matches(included[i], ref))
    decreases |included| - from
  {
    if from == |included| then None
    else if Matches(included[from], ref) then Some(included[from])
    else FirstMatch(ref, included, from + 1)
  }

  /** Each reference resolved to its first match in `included`, unresolved references dropped. */
  function Related(refs: seq<Ref>, included: seq<Resource>): (r: seq<Resource>)
    ensures |r| <= |refs|
    ensures forall k :: 0 <= k < |r| ==> r[k] in included
  {
    if refs == [] then []
    else
      var prev := Related(refs[..|refs| - 1], included);
      match FirstMatch(refs[|refs| - 1], included, 0)
      case None => prev
      case Some(item) => prev + [item]
  }

  /** Every resolved entry is identified by one of the references. */
  lemma {:induction false} RelatedSound(refs: seq<Ref>, included: seq<Resource>)
    ensures forall k :: 0 <= k < |Related(refs, included)| ==>
      exists i :: 0 <= i < |refs| && Matches(Related(refs, included)[k], refs[i])
  {
    if refs != [] {
      var init := refs[..|refs| - 1];
      RelatedSound(init, included);
      var prev := Related(init, included);
      var r := Related(refs, included);
      forall k | 0 <= k < |r|
        ensures exists i :: 0 <= i < |refs| && Matches(r[k], refs[i])
      {
        if k < |prev| {
          var i :| 0 <= i < |init| && Matches(prev[k], init[i]);
          assert refs[i] == init[i];
        } else {
          var m := FirstMatch(refs[|refs| - 1], included, 0);
          assert m.Some? && r == prev + [m.value];
          assert Matches(r[k], refs[|refs| - 1]);
        }
      }
      assert forall k :: 0 <= k < |r| ==> exists i :: 0 <= i < |refs| && Matches(r[k], refs[i]);
    } else {
      assert Related(refs, included) == [];
    }
  }

  /** When every reference resolves, the result lists the first match of each, in reference order. */
  lemma {:induction false} RelatedWhenAllResolve(refs: seq<Ref>, included: seq<Resource>)
    requires forall i :: 0 <= i < |refs| ==> FirstMatch(refs[i], included, 0).Some?
    ensures |Related(refs, included)| == |refs|
    ensures forall k :: 0 <= k < |refs| ==> Related(refs, included)[k] == FirstMatch(refs[k], included, 0).value
  {
    if refs != [] {
      var init := refs[..|refs| - 1];
      assert forall i :: 0 <= i < |init| ==> init[i] == refs[i];
      RelatedWhenAllResolve(init, included);
      var last := FirstMatch(refs[|refs| - 1], included, 0);
      var prev := Related(init, included);
      var r := Related(refs, included);
      assert r == prev + [last.value];
      forall k | 0 <= k < |refs|
        ensures r[k] == FirstMatch(refs[k], included, 0).value
      {
        if k < |init| {
          assert r[k] == prev[k] == FirstMatch(init[k], included, 0).value;
        }
      }
    }
  }

  /** The positions of the references that some item of `included` resolves. */
  function Resolved(refs: seq<Ref>, included: seq<Resource>): (ps: seq<nat>)
    ensures forall k :: 0 <= k < |ps| ==> ps[k] < |refs|
  {
    if refs == [] then []
    else
      var prev := Resolved(refs[..|refs| - 1], included);
      if FirstMatch(refs[|refs| - 1], included, 0).Some? then prev + [|refs| - 1] else prev
  }

  /** `Resolved` lists only positions of references that resolve. */
  lemma {:induction false} ResolvedOnlyResolvable(refs: seq<Ref>, included: seq<Resource>)
    ensures forall k :: 0 <= k < |Resolved(refs, included)| ==> FirstMatch(refs[Resolved(refs, included)[k]], included, 0).Some?
  {
    if refs != [] {
      var init := refs[..|refs| - 1];
      ResolvedOnlyResolvable(init, included);
      var prev := Resolved(init, included);
      var ps := Resolved(refs, included);
      var last := |refs| - 1;
      if FirstMatch(refs[last], included, 0).Some? {
        assert ps == prev + [last];
        forall k | 0 <= k < |ps|
          ensures FirstMatch(refs[ps[k]], included, 0).Some?
        {
          if k < |prev| {
            assert ps[k] == prev[k] && init[prev[k]] == refs[prev[k]];
          }
        }
      } else {
        assert ps == prev;
        forall k | 0 <= k < |ps|
          ensures FirstMatch(refs[ps[k]], included, 0).Some?
        {
          assert init[prev[k]] == refs[prev[k]];
        }
      }
    }
  }

  /** `Resolved` lists its positions in increasing order. */
  lemma {:induction false} ResolvedIncreasing(refs: seq<Ref>, included: seq<Resource>)
    ensures forall j, k :: 0 <= j < k < |Resolved(refs, included)| ==> Resolved(refs, included)[j] < Resolved(refs, included)[k]
  {
    if refs != [] {
      var init := refs[..|refs| - 1];
      ResolvedIncreasing(init, included);
      var prev := Resolved(init, included);
      var ps := Resolved(refs, included);
      if ps != prev {
        assert ps == prev + [|refs| - 1];
        forall j, k | 0 <= j < k < |ps|
          ensures ps[j] < ps[k]
        {
          assert ps[j] == prev[j] < |init|;
        }
      }
    }
  }

  /** Every reference that resolves has its position in `Resolved`. */
  lemma {:induction false} ResolvedComplete(refs: seq<Ref>, included: seq<Resource>)
    ensures forall i :: 0 <= i < |refs| && FirstMatch(refs[i], included, 0).Some? ==> i in Resolved(refs, included)
  {
    if refs != [] {
      var init := refs[..|refs| - 1];
      ResolvedComplete(init, included);
      var prev := Resolved(init, included);
      var ps := Resolved(refs, included);
      forall i | 0 <= i < |refs| && FirstMatch(refs[i], included, 0).Some?
        ensures i in ps
      {
        if i < |init| {
          assert init[i] == refs[i];
          assert i in prev;
        }
      }
    }
  }

  /**
   * Whatever resolves: the result holds, in reference order, the first match of each reference
   * that has one, and unresolved references leave no trace.
   */
  lemma {:induction false} RelatedInReferenceOrder(refs: seq<Ref>, included: seq<Resource>)
    ensures var ps := Resolved(refs, included); var r := Related(refs, included);
      && |r| == |ps|
      && forall k :: 0 <= k < |ps| ==> FirstMatch(refs[ps[k]], included, 0) == Some(r[k])
  {
    if refs != [] {
      var init := refs[..|refs| - 1];
      RelatedInReferenceOrder(init, included);
      var psPrev := Resolved(init, included);
      var prev := Related(init, included);
      var ps := Resolved(refs, included);
      var r := Related(refs, included);
      forall k | 0 <= k < |psPrev|
        ensures FirstMatch(refs[ps[k]], included, 0) == Some(r[k])
      {
        assert ps[k] == psPrev[k] && r[k] == prev[k];
        assert init[psPrev[k]] == refs[psPrev[k]];
      }
    }
  }

  /** `paf_get_related_data`: the nested loop with its early `break`. */
  method RelatedData(animal: Resource, name: string, included: seq<Resource>) returns (results: seq<Resource>)
    ensures results == Related(Refs(animal, name), included)
  {
    var refs := Refs(animal, name);
    results := [];
    var i := 0;
    while i < |refs|
      invariant 0 <= i <= |refs|
      invariant results == Related(refs[..i], included)
    {
      var rel := refs[i];
      assert refs[..i + 1][..i] == refs[..i];
      var j := 0;
      while j < |included|
        invariant 0 <= j <= |included|
        invariant FirstMatch(rel, included, j) == FirstMatch(rel, included, 0)
        invariant results == Related(refs[..i], included)
      {
        if included[j].kind == rel.kind && included[j].id == rel.id {
          results := results + [included[j]];
          break;
        }
        j := j + 1;
      }
      i := i + 1;
    }
    assert refs[..i] == refs;
  }

  /** The breed has a non-empty `name` attribute. */
  predicate Named(r: Resource) {
    !EmptyAt(r.attrs, "name")
  }

  function NameOf(r: Resource): string
    requires Named(r)
  {
    ToStr(r.attrs["name"])
  }

  /** A value that `empty()` rejects converts to a string that `empty()` also rejects. */
  lemma TruthyToStr(v: Value)
    requires !Falsy(v)
    ensures !EmptyString(ToStr(v))
  {
    var n := if v.Num? then v.n else if v.Float? then Trunc(v.x) else 0;
    if n > 0 && (v.Num? || (v.Float? && v.x == n as real)) {
      DecimalRoundTrip(n);
      assert DigitsValue("0") == 0;
    }
  }

  /** The non-empty names of `rs`, in order. */
  function NamesOf(rs: seq<Resource>): (names: seq<string>)
    ensures |names| <= |rs|
    ensures forall k :: 0 <= k < |names| ==> !EmptyString(names[k])
    ensures forall k :: 0 <= k < |names| ==> exists i :: 0 <= i < |rs| && Named(rs[i]) && names[k] == NameOf(rs[i])
    ensures names == [] <==> forall i :: 0 <= i < |rs| ==> !Named(rs[i])
  {
    if rs == [] then []
    else
      var init := rs[..|rs| - 1];
      var prev := NamesOf(init);
      assert forall i :: 0 <= i < |init| ==> init[i] == rs[i];
      var last := rs[|rs| - 1];
      if Named(last) then
        TruthyToStr(last.attrs["name"]);
        prev + [NameOf(last)]
      else prev
  }

  /** The loop that collects non-empty names, in `paf_get_breed_names` and `paf_get_breeds_list`. */
  method CollectNames(rs: seq<Resource>) returns (names: seq<string>)
    ensures names == NamesOf(rs)
  {
    names := [];
    var i := 0;
    while i < |rs|
      invariant 0 <= i <= |rs|
      invariant names == NamesOf(rs[..i])
    {
      assert rs[..i + 1][..i] == rs[..i];
      if !EmptyAt(rs[i].attrs, "name") {
        names := names + [ToStr(rs[i].attrs["name"])];
      }
      i := i + 1;
    }
    assert rs[..i] == rs;
  }

  /** `implode($sep, $xs)`. */
  function Join(xs: seq<string>, sep: string): string {
    if xs == [] then ""
    else if |xs| == 1 then xs[0]
    else Join(xs[..|xs| - 1], sep) + sep + xs[|xs| - 1]
  }

  /** Joining non-empty names with ", " gives a string that `empty()` rejects exactly when there is a name. */
  lemma JoinTruthy(xs: seq<string>)
    requires forall k :: 0 <= k < |xs| ==> !EmptyString(xs[k])
    ensures EmptyString(Join(xs, ", ")) <==> xs == []
  {
    if |xs| >= 2 {
      assert |Join(xs, ", ")| >= 2;
    }
  }

  /** What `paf_get_breed_names` returns. */
  function BreedNamesOf(animal: Resource, included: seq<Resource>): string {
    Join(NamesOf(Related(Refs(animal, "breeds"), included)), ", ")
  }

  /** The breed string is non-empty, in `empty()`'s sense, exactly when some resolved breed has a name. */
  lemma BreedNamesTruthy(animal: Resource, included: seq<Resource>)
    ensures !EmptyString(BreedNamesOf(animal, included)) <==>
      exists b :: b in Related(Refs(animal, "breeds"), included) && Named(b)
  {
    var breeds := Related(Refs(animal, "breeds"), included);
    JoinTruthy(NamesOf(breeds));
    if exists b :: b in breeds && Named(b) {
      var b :| b in breeds && Named(b);
      var i :| 0 <= i < |breeds| && breeds[i] == b;
    }
  }

  /** `paf_get_breed_names`. */
  method BreedNames(animal: Resource, included: seq<Resource>) returns (r: string)
    ensures r == BreedNamesOf(animal, included)
  {
    var breeds := RelatedData(animal, "breeds", included);
    var names := CollectNames(breeds);
    r := Join(names, ", ");
  }

  /** The sort key of a picture: its `order`, or 999 when it has none. */
  function OrderKey(p: Resource): int {
    if IsSet(p.attrs, "order") then ToInt(p.attrs["order"]) else 999
  }

  /** The `usort` comparator of `paf_get_primary_image` and `paf_get_all_images`. */
  predicate ByOrder(a: Resource, b: Resource) {
    OrderKey(a) <= OrderKey(b)
  }

  lemma ByOrderIsTotalPreorder()
    ensures TotalPreorder(ByOrder)
  {
  }

  function Pictures(animal: Resource, included: seq<Resource>): seq<Resource> {
    Related(Refs(animal, "pictures"), included)
  }

  /** `paf_get_all_images`: the related pictures, sorted by order. */
  method AllImages(animal: Resource, included: seq<Resource>) returns (images: seq<Resource>)
    ensures multiset(images) == multiset(Pictures(animal, included))
    ensures SortedBy(images, ByOrder)
  {
    var pictures := RelatedData(animal, "pictures", included);
    ByOrderIsTotalPreorder();
    images := SortBy(pictures, ByOrder);
  }

  function Placeholder(pluginUrl: string): string {
    pluginUrl + "assets/images/placeholder-pet.png"
  }

  /** What `paf_get_primary_image` returns for one particular `usort` outcome. */
  function PrimaryImageOf(animal: Resource, included: seq<Resource>, size: string, pluginUrl: string): string {
    if !EmptyAt(animal.attrs, "pictureThumbnailUrl") then ToStr(animal.attrs["pictureThumbnailUrl"])
    else
      var pictures := Pictures(animal, included);
      if pictures == [] then Placeholder(pluginUrl)
      else
        ByOrderIsTotalPreorder();
        var primary := SortBy(pictures, ByOrder)[0];
        if !EmptyAt(primary.attrs, size) then ToStr(primary.attrs[size]) else Placeholder(pluginUrl)
  }

  /**
   * A non-empty thumbnail wins; otherwise a lowest-order picture decides alone: its URL for
   * `size` if that is non-empty, else the placeholder (no later picture is tried).
   */
  lemma PrimaryImageChoice(animal: Resource, included: seq<Resource>, size: string, pluginUrl: string)
    ensures var url := PrimaryImageOf(animal, included, size, pluginUrl);
      && (!EmptyAt(animal.attrs, "pictureThumbnailUrl") ==> url == ToStr(animal.attrs["pictureThumbnailUrl"]))
      && (EmptyAt(animal.attrs, "pictureThumbnailUrl") && Pictures(animal, included) == [] ==> url == Placeholder(pluginUrl))
      && (EmptyAt(animal.attrs, "pictureThumbnailUrl") && Pictures(animal, included) != [] ==>
            exists p :: p in Pictures(animal, included)
              && (forall q :: q in Pictures(animal, included) ==> OrderKey(p) <= OrderKey(q))
              && url == (if !EmptyAt(p.attrs, size) then ToStr(p.attrs[size]) else Placeholder(pluginUrl)))
  {
    var pictures := Pictures(animal, included);
    if EmptyAt(animal.attrs, "pictureThumbnailUrl") && pictures != [] {
      ByOrderIsTotalPreorder();
      var sorted := SortBy(pictures, ByOrder);
      SortedHeadIsLeast(sorted, pictures, ByOrder);
      var p := sorted[0];
      assert forall q :: q in pictures ==> OrderKey(p) <= OrderKey(q) by {
        forall q | q in pictures
          ensures OrderKey(p) <= OrderKey(q)
        {
          assert ByOrder(p, q);
        }
      }
      assert PrimaryImageOf(animal, included, size, pluginUrl)
        == (if !EmptyAt(p.attrs, size) then ToStr(p.attrs[size]) else Placeholder(pluginUrl));
    }
  }

  /** `paf_get_primary_image`. */
  method PrimaryImage(animal: Resource, included: seq<Resource>, size: string, pluginUrl: string) returns (url: string)
    ensures url == PrimaryImageOf(animal, included, size, pluginUrl)
  {
    if !EmptyAt(animal.attrs, "pictureThumbnailUrl") {
      return ToStr(animal.attrs["pictureThumbnailUrl"]);
    }
    var pictures := RelatedData(animal, "pictures", included);
    if pictures != [] {
      ByOrderIsTotalPreorder();
      var sorted := SortBy(pictures, ByOrder);
      var primary := sorted[0];
      if !EmptyAt(primary.attrs, size) {
        return ToStr(primary.attrs[size]);
      }
    }
    return Placeholder(pluginUrl);
  }
}
