/**
 * `SaveImageToPhotosUseCase` and `PhotosAccessError`
 * (PokemonApp/Domain/UseCases/SaveImageToPhotosUseCase.swift): ask the
 * photo service for authorization, then save one image or a batch.
 *
 * The photo service is an oracle: whether authorization is granted, and
 * what each kind of save does. Every run returns its outcome together with
 * the log of the service calls it made, in order.
 */
module SavePhotos {
  import opened Base
  import opened Errors
  import opened Entities

  /** The answers of a `PhotoLibraryService`. */
  datatype PhotoService = PhotoService(
    authorized: bool,
    saveOne: Image -> Outcome<Error>,
    saveMany: seq<Image> -> Outcome<Error>)

  /** One call made on the service. */
  datatype ServiceCall = RequestAuthorization | SaveOne(image: Image) | SaveMany(images: seq<Image>)

  /** What a use-case call did: its outcome and the calls it made. */
  datatype SaveRun = SaveRun(outcome: Outcome<Error>, calls: seq<ServiceCall>)

  /** `PhotosAccessError.denied.errorDescription`. */
  const DeniedDescription: string := "Photos permission denied"

  /** The number of single saves in a call log. */
  function SingleSaves(calls: seq<ServiceCall>): (n: nat)
    ensures n <= |calls|
  {
    if calls == [] then 0
    else SingleSaves(calls[..|calls| - 1]) + (if calls[|calls| - 1].SaveOne? then 1 else 0)
  }

  /** The number of batch saves in a call log. */
  function BatchSaves(calls: seq<ServiceCall>): (n: nat)
    ensures n <= |calls|
  {
    if calls == [] then 0
    else BatchSaves(calls[..|calls| - 1]) + (if calls[|calls| - 1].SaveMany? then 1 else 0)
  }

  /** `callAsFunction(_ image:)`: the authorization gate, then one single save. */
  function SaveImage(service: PhotoService, image: Image): (r: SaveRun)
    ensures |r.calls| > 0 && r.calls[0] == RequestAuthorization
    ensures r.outcome.Pass? ==> service.authorized
  {
    if !service.authorized then SaveRun(Fail(PhotosAccessDenied), [RequestAuthorization])
    else SaveRun(service.saveOne(image), [RequestAuthorization, SaveOne(image)])
  }

  /** `callAsFunction(_ images:)`: the authorization gate, then one batch save. */
  function SaveImages(service: PhotoService, images: seq<Image>): (r: SaveRun)
    ensures |r.calls| > 0 && r.calls[0] == RequestAuthorization
    ensures r.outcome.Pass? ==> service.authorized
  {
    if !service.authorized then SaveRun(Fail(PhotosAccessDenied), [RequestAuthorization])
    else SaveRun(service.saveMany(images), [RequestAuthorization, SaveMany(images)])
  }

  /**
   * A single save: denied authorization throws `denied` with no save call;
   * granted authorization makes exactly one single save and no batch save,
   * and that save's error is thrown unchanged.
   */
  lemma SaveImageCalls(service: PhotoService, image: Image)
    ensures var r := SaveImage(service, image);
      && BatchSaves(r.calls) == 0
      && (!service.authorized ==> r.outcome == Fail(PhotosAccessDenied) && SingleSaves(r.calls) == 0)
      && (service.authorized ==>
            SingleSaves(r.calls) == 1 && SaveOne(image) in r.calls && r.outcome == service.saveOne(image))
  {
    var r := SaveImage(service, image);
    if service.authorized {
      assert r.calls[..|r.calls| - 1] == [RequestAuthorization];
    } else {
      assert r.calls[..|r.calls| - 1] == [];
    }
  }

  /**
   * A batch save: denied authorization throws `denied` with no batch call;
   * granted authorization makes exactly one batch save of the same images
   * and no single save, and that save's error is thrown unchanged.
   */
  lemma SaveImagesCalls(service: PhotoService, images: seq<Image>)
    ensures var r := SaveImages(service, images);
      && SingleSaves(r.calls) == 0
      && (!service.authorized ==> r.outcome == Fail(PhotosAccessDenied) && BatchSaves(r.calls) == 0)
      && (service.authorized ==>
            BatchSaves(r.calls) == 1 && SaveMany(images) in r.calls && r.outcome == service.saveMany(images))
  {
    var r := SaveImages(service, images);
    if service.authorized {
      assert r.calls[..|r.calls| - 1] == [RequestAuthorization];
    } else {
      assert r.calls[..|r.calls| - 1] == [];
    }
  }

  /** The `denied` error reads "Photos permission denied", both described and humanized. */
  lemma DeniedText()
    ensures LocalizedDescription(PhotosAccessDenied) == DeniedDescription
    ensures Humanize(PhotosAccessDenied) == DeniedDescription
  {
  }
}
