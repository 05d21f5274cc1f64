/** The dashboard: the user's images fetched from the server, the counts
    shown above them, deletion by id, a camera upload and the upload
    dialog's completion, each reported with a toast. */
module Dashboard {
  import opened Wrappers
  import opened Text
  import Seqs
  import Media
  import Api

  const DeletePrefix: string := "/images/delete/"
  const CaptureType: string := "image/jpeg"

  const LoadFailed: string := "Failed to load images"
  const PhotoUploaded: string := "Photo uploaded successfully!"
  const PhotoFailed: string := "Failed to upload photo"
  const ImageDeleted: string := "Image deleted successfully"
  const DeleteFailed: string := "Failed to delete image"
  const ImagesUploaded: string := "Images uploaded successfully!"

  /** The toast's `type`: `success` or `error`. */
  datatype ToastKind = Success | Failure
  datatype Toast = Toast(kind: ToastKind, message: string)

  // ---------------------------------------------------------------- deletion

  /** The test `img._id !== id` the delete filter keeps an image by. */
  function Keeps(id: string): Media.Image -> bool {
    (img: Media.Image) => img.id != id
  }

  /** `images.filter((img) => img._id !== id)`: the images whose id is not
      `id`, and no other. */
  function WithoutImage(images: seq<Media.Image>, id: string): (r: seq<Media.Image>)
    ensures forall img :: img in r <==> img in images && img.id != id
    ensures forall i :: 0 <= i < |r| ==> r[i].id != id
    ensures |r| <= |images|
  {
    Seqs.Filter(images, Keeps(id))
  }

  /** Every image with another id keeps its number of occurrences; none with
      the deleted id is left. */
  lemma DeleteCounts(images: seq<Media.Image>, id: string, img: Media.Image)
    ensures multiset(WithoutImage(images, id))[img] == if img.id == id then 0 else multiset(images)[img]
  {
    Seqs.FilterCounts(images, Keeps(id), img);
  }

  /** The survivors keep their relative order: deleting from a list cut in
      two is deleting from each part. */
  lemma DeleteKeepsOrder(a: seq<Media.Image>, b: seq<Media.Image>, id: string)
    ensures WithoutImage(a + b, id) == WithoutImage(a, id) + WithoutImage(b, id)
  {
    Seqs.FilterAppend(a, b, Keeps(id));
  }

  /** Deleting an id no image has leaves the list as it was. */
  lemma DeleteMissingId(images: seq<Media.Image>, id: string)
    requires forall i :: 0 <= i < |images| ==> images[i].id != id
    ensures WithoutImage(images, id) == images
  {
    Seqs.FilterAllKept(images, Keeps(id));
  }

  /** The number of images carrying `id`. */
  function CountWithId(images: seq<Media.Image>, id: string): (n: nat)
    ensures n <= |images|
    ensures n == 0 <==> forall i :: 0 <= i < |images| ==> images[i].id != id
  {
    Seqs.CountRejected(images, Keeps(id))
  }

  // ---------------------------------------------------------------- stats

  /** The two counters above the list that do not involve floating point:
      "Total Uploads" and "Last Upload" (`None` standing for `N/A`). */
  datatype Stats = Stats(totalUploads: nat, lastUpload: Option<string>)

  function StatsOf(images: seq<Media.Image>): (s: Stats)
    ensures s.totalUploads == |images|
    ensures s.lastUpload.Some? <==> images != [] && Truthy(images[0].uploadedAt)
    ensures s.lastUpload.Some? ==> s.lastUpload == images[0].uploadedAt
  {
    Stats(|images|,
      if images != [] && Truthy(images[0].uploadedAt) then images[0].uploadedAt else None)
  }

  /** After a delete, "Total Uploads" drops by the number of images that
      carried the id, and by nothing when none did. */
  lemma TotalAfterDelete(images: seq<Media.Image>, id: string)
    ensures StatsOf(WithoutImage(images, id)).totalUploads == |images| - CountWithId(images, id)
  {
    Seqs.FilterLength(images, Keeps(id));
  }

  /** Deleting any image but the first leaves "Last Upload" as it was. */
  lemma LastUploadAfterDelete(images: seq<Media.Image>, id: string)
    requires images != [] && images[0].id != id
    ensures StatsOf(WithoutImage(images, id)).lastUpload == StatsOf(images).lastUpload
  {
    assert WithoutImage(images, id)[0] == images[0];
  }

  // ---------------------------------------------------------------- camera

  /** The file `handleCapture` makes of the captured image's bytes. */
  function CaptureFile(blob: seq<Media.byte>): (f: Media.File)
    ensures f.name == Media.CaptureName && f.Size() == |blob| && f.content == blob
    ensures Media.BlobType(CaptureType) == f.mime && StartsWith(f.mime, "image/")
  {
    assert forall k :: 0 <= k < |CaptureType| ==> ' ' <= CaptureType[k] <= '~' && LowerAscii(CaptureType[k]) == CaptureType[k];
    Media.File(Media.CaptureName, CaptureType, blob)
  }

  /** The form a capture is posted in: the one `image` entry. */
  function CaptureForm(blob: seq<Media.byte>): (form: Media.FormData)
    ensures |form| == 1 && form[0] == ("image", Media.FileField(CaptureFile(blob), Media.CaptureName))
  {
    [("image", Media.FileField(CaptureFile(blob), Media.CaptureName))]
  }

  class DashboardPage {
    var images: seq<Media.Image>
    var loading: bool
    var showUploadModal: bool
    var showCamera: bool
    var toast: Option<Toast>

    /** The first render: no images yet, loading, nothing open. Nothing on
        the page ever sets `showCamera`, so the camera stays hidden. */
    constructor ()
      ensures images == [] && loading && !showUploadModal && !showCamera && toast == None
    {
      images := [];
      loading := true;
      showUploadModal := false;
      showCamera := false;
      toast := None;
    }

    /** `fetchData` up to the request it awaits: the loader shows. */
    method BeginFetch()
      modifies this
      ensures loading
      ensures images == old(images) && toast == old(toast)
      ensures showUploadModal == old(showUploadModal) && showCamera == old(showCamera)
    {
      loading := true;
    }

    /** The rest of `fetchData` once the request settles. The reply holds
        `res.data.data.images`, `None` when `res.data.data` is missing and
        reading it throws. A list replaces the images; a rejection or a
        missing body keeps the old list and shows the error toast; the loader
        goes either way. */
    method FinishFetch(reply: Api.Settled<Option<seq<Media.Image>>>)
      modifies this
      ensures !loading
      ensures reply.Resolved? && reply.value.Some? ==> images == reply.value.value && toast == old(toast)
      ensures !(reply.Resolved? && reply.value.Some?) ==>
        images == old(images) && toast == Some(Toast(Failure, LoadFailed))
      ensures showUploadModal == old(showUploadModal) && showCamera == old(showCamera)
    {
      match reply {
        case Resolved(Some(list)) =>
          images := list;
        case Resolved(None) =>
          toast := Some(Toast(Failure, LoadFailed));
        case Rejected(_) =>
          toast := Some(Toast(Failure, LoadFailed));
      }
      loading := false;
    }

    /** `handleDelete`, given how the delete request ends: it asks for
        `/images/delete/<id>`; success removes exactly the images with that
        id, failure keeps the list; each shows its toast. */
    method HandleDelete(id: string, reply: Api.Settled<()>) returns (path: string)
      modifies this
      ensures path == DeletePrefix + id
      ensures reply.Resolved? ==> images == WithoutImage(old(images), id) && toast == Some(Toast(Success, ImageDeleted))
      ensures reply.Rejected? ==> images == old(images) && toast == Some(Toast(Failure, DeleteFailed))
      ensures loading == old(loading) && showUploadModal == old(showUploadModal) && showCamera == old(showCamera)
    {
      path := DeletePrefix + id;
      if reply.Resolved? {
        images := WithoutImage(images, id);
        toast := Some(Toast(Success, ImageDeleted));
      } else {
        toast := Some(Toast(Failure, DeleteFailed));
      }
    }

    /** `handleCapture`. `blob` is what reading the data URL gives, `None`
        where that fails; `reply` is how the upload ends. A capture read and
        uploaded shows the success toast and starts a new fetch; any failure
        shows the error toast. The camera is closed whatever happened. */
    method HandleCapture(blob: Option<seq<Media.byte>>, reply: Api.Settled<()>) returns (sent: Option<Media.FormData>)
      modifies this
      ensures sent == if blob.Some? then Some(CaptureForm(blob.value)) else None
      ensures !showCamera
      ensures blob.Some? && reply.Resolved? ==> toast == Some(Toast(Success, PhotoUploaded)) && loading
      ensures !(blob.Some? && reply.Resolved?) ==>
        toast == Some(Toast(Failure, PhotoFailed)) && loading == old(loading)
      ensures images == old(images) && showUploadModal == old(showUploadModal)
    {
      if blob.None? {
        sent := None;
        toast := Some(Toast(Failure, PhotoFailed));
      } else {
        sent := Some(CaptureForm(blob.value));
        if reply.Resolved? {
          toast := Some(Toast(Success, PhotoUploaded));
          BeginFetch();
        } else {
          toast := Some(Toast(Failure, PhotoFailed));
        }
      }
      showCamera := false;
    }

    /** The upload dialog's `onUploadComplete`: a new fetch starts and the
        success toast shows. */
    method OnUploadComplete()
      modifies this
      ensures loading && toast == Some(Toast(Success, ImagesUploaded))
      ensures images == old(images) && showUploadModal == old(showUploadModal) && showCamera == old(showCamera)
    {
      BeginFetch();
      toast := Some(Toast(Success, ImagesUploaded));
    }

    /** The Upload button and the dialog's `onClose`. */
    method SetUploadModal(open: bool)
      modifies this
      ensures showUploadModal == open
      ensures images == old(images) && loading == old(loading) && showCamera == old(showCamera) && toast == old(toast)
    {
      showUploadModal := open;
    }

    /** The camera's `onClose`. */
    method CloseCamera()
      modifies this
      ensures !showCamera
      ensures images == old(images) && loading == old(loading) && showUploadModal == old(showUploadModal) && toast == old(toast)
    {
      showCamera := false;
    }

    /** The toast's `onClose`. */
    method DismissToast()
      modifies this
      ensures toast == None
      ensures images == old(images) && loading == old(loading)
      ensures showUploadModal == old(showUploadModal) && showCamera == old(showCamera)
    {
      toast := None;
    }
  }
}
