/**
 * `PokemonDetailViewModel`
 * (PokemonApp/Presentation/Features/PokemonDetail/PokemonDetailViewModel.swift):
 * loads the sprite images of a detail into slots, publishes them, and
 * saves one image or all of them to Photos with a toast.
 *
 * The image provider is an oracle from URL to image or error. The fetches
 * run concurrently in the source; the model takes the order in which they
 * complete as a parameter (a permutation of the sprite indices) and proves
 * that what is published does not depend on it.
 */
module DetailViewModel {
  import opened Base
  import opened Text
  import opened Errors
  import opened Entities
  import opened SavePhotos

  /** `imageProvider`. */
  type ImageProvider = Url -> Result<Image, Error>

  /** What the provider answers for each sprite URL, by index. */
  function Results(urls: seq<Url>, provider: ImageProvider): (rs: seq<Result<Image, Error>>)
    ensures |rs| == |urls|
    ensures forall i :: 0 <= i < |urls| ==> rs[i] == provider(urls[i])
  {
    seq(|urls|, i requires 0 <= i < |urls| => provider(urls[i]))
  }

  /** The number of fetches that succeeded. */
  function SuccessCount(rs: seq<Result<Image, Error>>): (n: nat)
    ensures n <= |rs|
  {
    if rs == [] then 0
    else SuccessCount(rs[..|rs| - 1]) + (if rs[|rs| - 1].Ok? then 1 else 0)
  }

  /** The indices whose fetch succeeded. */
  function OkIndices(rs: seq<Result<Image, Error>>): set<int>
  {
    set i | 0 <= i < |rs| && rs[i].Ok?
  }

  /** The successes counted one by one are the successful indices. */
  lemma {:induction false} SuccessCountIsOkIndices(rs: seq<Result<Image, Error>>)
    ensures |OkIndices(rs)| == SuccessCount(rs)
  {
    if rs != [] {
      var n := |rs| - 1;
      var init := rs[..n];
      SuccessCountIsOkIndices(init);
      assert OkIndices(rs) == OkIndices(init) + (if rs[n].Ok? then {n} else {});
    }
  }

  /**
   * The slot array once every fetch has landed: slot `i` holds the image
   * for URL `i`, or the placeholder when that fetch failed.
   */
  function Slots(rs: seq<Result<Image, Error>>): (r: seq<Image>)
    ensures |r| == |rs|
    ensures forall i :: 0 <= i < |rs| ==> r[i] == if rs[i].Ok? then rs[i].value else Placeholder
  {
    seq(|rs|, i requires 0 <= i < |rs| => if rs[i].Ok? then rs[i].value else Placeholder)
  }

  /** What `loadFromCache` publishes, as written: the first `filled` slots. */
  function Published(rs: seq<Result<Image, Error>>): (r: seq<Image>)
    ensures |r| == SuccessCount(rs)
  {
    Slots(rs)[..SuccessCount(rs)]
  }

  /** When every fetch succeeds, the images are published in URL order. */
  lemma {:induction false} AllSucceedPublishedInOrder(rs: seq<Result<Image, Error>>)
    requires forall i :: 0 <= i < |rs| ==> rs[i].Ok?
    ensures |Published(rs)| == |rs|
    ensures forall i :: 0 <= i < |rs| ==> Published(rs)[i] == rs[i].value
  {
    AllOkCount(rs);
  }

  lemma {:induction false} AllOkCount(rs: seq<Result<Image, Error>>)
    requires forall i :: 0 <= i < |rs| ==> rs[i].Ok?
    ensures SuccessCount(rs) == |rs|
  {
    if rs != [] {
      AllOkCount(rs[..|rs| - 1]);
    }
  }

  /**
   * As written, a failed fetch whose index is below the number of
   * successes leaves the placeholder inside the published list.
   */
  lemma PlaceholderPublished(rs: seq<Result<Image, Error>>, i: int)
    requires 0 <= i < SuccessCount(rs) && rs[i].Err?
    ensures Published(rs)[i] == Placeholder
  {
  }

  /**
   * The counterexample: with the middle of three fetches failing, the
   * first image and a placeholder are published, and the third image is
   * dropped.
   */
  lemma MiddleFailureExample(a: Image, c: Image, e: Error)
    ensures Published([Ok(a), Err(e), Ok(c)]) == [a, Placeholder]
  {
    var rs: seq<Result<Image, Error>> := [Ok(a), Err(e), Ok(c)];
    var two, one := rs[..2], rs[..2][..1];
    assert two == [Ok(a), Err(e)];
    assert one == [Ok(a)] && one[..0] == [];
    assert SuccessCount(one) == 1;
    assert SuccessCount(two) == 1;
    assert SuccessCount(rs) == 2;
  }

  /** The evidently intended result: the successes, compacted, in URL order. */
  function Compacted(rs: seq<Result<Image, Error>>): (r: seq<Image>)
    ensures |r| == SuccessCount(rs)
  {
    if rs == [] then []
    else
      var n := |rs| - 1;
      var init := Compacted(rs[..n]);
      if rs[n].Ok? then init + [rs[n].value] else init
  }

  /** The compacted list holds every successful image and nothing else. */
  lemma {:induction false} CompactedMembers(rs: seq<Result<Image, Error>>)
    ensures forall i :: 0 <= i < |rs| && rs[i].Ok? ==> rs[i].value in Compacted(rs)
    ensures forall k :: 0 <= k < |Compacted(rs)| ==> exists i :: 0 <= i < |rs| && rs[i] == Ok(Compacted(rs)[k])
  {
    if rs == [] {
      assert Compacted(rs) == [];
    } else {
      var n := |rs| - 1;
      var init := rs[..n];
      CompactedMembers(init);
      var head := Compacted(init);
      assert forall i :: 0 <= i < n ==> init[i] == rs[i];
      assert Compacted(rs) == if rs[n].Ok? then head + [rs[n].value] else head;
      forall i | 0 <= i < |rs| && rs[i].Ok?
        ensures rs[i].value in Compacted(rs)
      {
        if i < n {
          assert init[i].value in head;
        }
      }
      forall k | 0 <= k < |Compacted(rs)|
        ensures exists i :: 0 <= i < |rs| && rs[i] == Ok(Compacted(rs)[k])
      {
        if k < |head| {
          assert Compacted(rs)[k] == head[k];
          var i :| 0 <= i < |init| && init[i] == Ok(head[k]);
          assert rs[i] == Ok(Compacted(rs)[k]);
        } else {
          assert rs[n] == Ok(Compacted(rs)[k]);
        }
      }
    }
  }

  /** With the intended definition, the middle-failure case keeps both successes. */
  lemma CompactedMiddleFailure(a: Image, c: Image, e: Error)
    ensures Compacted([Ok(a), Err(e), Ok(c)]) == [a, c]
  {
    var rs: seq<Result<Image, Error>> := [Ok(a), Err(e), Ok(c)];
    var two, one := rs[..2], rs[..2][..1];
    assert two == [Ok(a), Err(e)];
    assert one == [Ok(a)] && one[..0] == [];
    assert Compacted(one) == [a];
    assert Compacted(two) == [a];
  }

  /** When every fetch succeeds, the compacted list is every image in URL order. */
  lemma {:induction false} AllOkCompacted(rs: seq<Result<Image, Error>>)
    requires forall i :: 0 <= i < |rs| ==> rs[i].Ok?
    ensures |Compacted(rs)| == |rs|
    ensures forall i :: 0 <= i < |rs| ==> Compacted(rs)[i] == rs[i].value
  {
    if rs != [] {
      var n := |rs| - 1;
      var init := rs[..n];
      assert forall i :: 0 <= i < |init| ==> init[i] == rs[i];
      AllOkCompacted(init);
      var head := Compacted(init);
      var whole := head + [rs[n].value];
      assert Compacted(rs) == whole;
      forall i | 0 <= i < |rs|
        ensures whole[i] == rs[i].value
      {
        if i < n {
          assert whole[i] == head[i] == init[i].value;
        }
      }
    }
  }

  /**
   * The written and the intended results agree when no failure precedes
   * a success, in particular when every fetch succeeds.
   */
  lemma {:induction false} PublishedIsCompactedWhenFailuresTrail(rs: seq<Result<Image, Error>>)
    requires forall i, j :: 0 <= i < j < |rs| && rs[i].Err? ==> rs[j].Err?
    ensures Published(rs) == Compacted(rs)
  {
    if rs == [] {
    } else if forall i :: 0 <= i < |rs| ==> rs[i].Ok? {
      AllSucceedPublishedInOrder(rs);
      AllOkCompacted(rs);
    } else {
      var n := |rs| - 1;
      var f :| 0 <= f < |rs| && rs[f].Err?;
      assert rs[n].Err?;
      var init := rs[..n];
      PublishedIsCompactedWhenFailuresTrail(init);
      assert SuccessCount(rs) == SuccessCount(init);
      assert Compacted(rs) == Compacted(init);
      assert Published(rs) == Published(init);
    }
  }

  /** The completion order of the fetches: every sprite index exactly once. */
  predicate IsCompletionOrder(order: seq<int>, n: int)
  {
    |order| == n
    && (forall k :: 0 <= k < |order| ==> 0 <= order[k] < n)
    && (forall k, m :: 0 <= k < m < |order| ==> order[k] != order[m])
    && (forall i :: 0 <= i < n ==> i in order)
  }

  /** The indices among `seen` whose fetch succeeded. */
  ghost function Landed(rs: seq<Result<Image, Error>>, seen: set<int>): set<int>
  {
    set j | j in seen && 0 <= j < |rs| && rs[j].Ok?
  }

  /** One more result landing adds one to the count exactly when it is a success. */
  lemma LandedAdd(rs: seq<Result<Image, Error>>, seen: set<int>, i: int)
    requires 0 <= i < |rs| && i !in seen
    ensures |Landed(rs, seen + {i})| == |Landed(rs, seen)| + (if rs[i].Ok? then 1 else 0)
  {
    if rs[i].Ok? {
      assert Landed(rs, seen + {i}) == Landed(rs, seen) + {i};
    } else {
      assert Landed(rs, seen + {i}) == Landed(rs, seen);
    }
  }

  /**
   * The task group of `loadFromCache`: the results land in `order`, each
   * in the slot of its index, and `filled` counts the successes. Whatever
   * the order, the slots end as `Slots` and the count as `SuccessCount`.
   */
  method FillSlots(urls: seq<Url>, provider: ImageProvider, order: seq<int>)
    returns (tmp: array<Image>, filled: int)
    requires IsCompletionOrder(order, |urls|)
    ensures tmp.Length == |urls|
    ensures tmp[..] == Slots(Results(urls, provider))
    ensures filled == SuccessCount(Results(urls, provider))
  {
    var n := |urls|;
    ghost var rs := Results(urls, provider);
    tmp := new Image[n](_ => Placeholder);
    filled := 0;
    ghost var seen: set<int> := {};
    var k := 0;
    while k < n
      invariant 0 <= k <= n
      invariant forall j :: j in seen <==> j in order[..k]
      invariant filled == |Landed(rs, seen)|
      invariant forall j :: 0 <= j < n ==>
        tmp[j] == if j in seen && rs[j].Ok? then rs[j].value else Placeholder
    {
      var i := order[k];
      assert order[..k + 1] == order[..k] + [i];
      LandedAdd(rs, seen, i);
      var res := provider(urls[i]);
      if res.Ok? {
        tmp[i] := res.value;
        filled := filled + 1;
      }
      seen := seen + {i};
      k := k + 1;
    }
    assert order[..n] == order;
    assert Landed(rs, seen) == OkIndices(rs);
    SuccessCountIsOkIndices(rs);
  }

  /** The toast after `save(_:)`. */
  function SaveToast(outcome: Outcome<Error>): string
  {
    match outcome
    case Pass => "Saved to Photos"
    case Fail(e) => Humanize(e)
  }

  /** The toast after `saveAll()` of `count` images. */
  function SaveAllToast(outcome: Outcome<Error>, count: int): string
  {
    match outcome
    case Pass => "Saved " + Decimal(count) + " images"
    case Fail(e) => Humanize(e)
  }

  /** The count shown after a batch save is the number of images saved: it parses back. */
  lemma {:induction false} SaveAllToastCount(count: nat)
    requires count <= IntMax
    ensures var t := SaveAllToast(Pass, count);
      |t| > |"Saved "| + |" images"|
      && HasPrefix(t, "Saved ") && HasSuffix(t, " images")
      && ParseInt(t[|"Saved "|..|t| - |" images"|]) == Some(count)
  {
    var t := SaveAllToast(Pass, count);
    assert t[|"Saved "|..|t| - |" images"|] == Decimal(count);
    ParseDecimal(count);
  }

  /** Without Photos permission, both saves show "Photos permission denied". */
  lemma DeniedToast(service: PhotoService, image: Image, images: seq<Image>)
    requires !service.authorized
    ensures SaveToast(SaveImage(service, image).outcome) == DeniedDescription
    ensures SaveAllToast(SaveImages(service, images).outcome, |images|) == DeniedDescription
  {
  }

  /** A failed save shows a message that is not empty unless Foundation's own text was empty. */
  lemma FailureToastNonEmpty(e: Error)
    requires LocalizedDescription(e) != ""
    ensures SaveToast(Fail(e)) != "" && SaveAllToast(Fail(e), 0) != ""
  {
    HumanizeNonEmpty(e);
  }

  /** The view model, with the fields the source sets. */
  class PokemonDetailViewModel {
    var images: seq<Image>
    var isLoading: bool
    var toast: Option<string>
    const detail: Detail
    const saveToPhotos: PhotoService
    const imageProvider: ImageProvider
    /** The calls made on the photo service so far. */
    ghost var serviceCalls: seq<ServiceCall>

    constructor(detail: Detail, saveToPhotos: PhotoService, imageProvider: ImageProvider)
      ensures this.detail == detail && this.saveToPhotos == saveToPhotos
      ensures this.imageProvider == imageProvider
      ensures images == [] && !isLoading && toast.None? && serviceCalls == []
    {
      this.detail := detail;
      this.saveToPhotos := saveToPhotos;
      this.imageProvider := imageProvider;
      images := [];
      isLoading := false;
      toast := None;
      serviceCalls := [];
    }

    /**
     * `loadFromCache()`: with images already present, nothing happens.
     * Otherwise the fetch results arrive in `order`, each written to the
     * slot of its URL's index, counting the successes; then the first
     * `filled` slots are published, whatever the order.
     */
    method LoadFromCache(order: seq<int>)
      requires IsCompletionOrder(order, |detail.spriteURLs|)
      modifies this
      ensures old(images) != [] ==>
        images == old(images) && isLoading == old(isLoading) && toast == old(toast)
      ensures old(images) == [] ==>
        images == Published(Results(detail.spriteURLs, imageProvider)) && !isLoading && toast == old(toast)
      ensures serviceCalls == old(serviceCalls)
    {
      if images != [] {
        return;
      }
      isLoading := true;
      var tmp, filled := FillSlots(detail.spriteURLs, imageProvider, order);
      images := tmp[..filled];
      isLoading := false;
    }

    /** `save(_:)`: the use case on one image, then the toast. */
    method Save(image: Image)
      modifies this
      ensures serviceCalls == old(serviceCalls) + SaveImage(saveToPhotos, image).calls
      ensures toast == Some(SaveToast(SaveImage(saveToPhotos, image).outcome))
      ensures images == old(images) && isLoading == old(isLoading)
    {
      var run := SaveImage(saveToPhotos, image);
      serviceCalls := serviceCalls + run.calls;
      if run.outcome.Pass? {
        toast := Some("Saved to Photos");
      } else {
        toast := Some(Humanize(run.outcome.error));
      }
    }

    /** `saveAll()`: the use case on the current images, then the toast with their count. */
    method SaveAll()
      modifies this
      ensures serviceCalls == old(serviceCalls) + SaveImages(saveToPhotos, old(images)).calls
      ensures toast == Some(SaveAllToast(SaveImages(saveToPhotos, old(images)).outcome, |old(images)|))
      ensures images == old(images) && isLoading == old(isLoading)
    {
      var run := SaveImages(saveToPhotos, images);
      serviceCalls := serviceCalls + run.calls;
      if run.outcome.Pass? {
        toast := Some("Saved " + Decimal(|images|) + " images");
      } else {
        toast := Some(Humanize(run.outcome.error));
      }
    }

    /** `_injectImagesForTesting(_:)`. */
    method InjectImagesForTesting(imgs: seq<Image>)
      modifies this
      ensures images == imgs && isLoading == old(isLoading) && toast == old(toast)
      ensures serviceCalls == old(serviceCalls)
    {
      images := imgs;
    }
  }
}
