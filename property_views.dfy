/**
 * `PropertyViewSet` (backend/properties/views.py): the list filter, the
 * realtor stamped on creation, and the two image actions. Uploading checks
 * every file before it stores any, so a refused request stores nothing.
 * The tables of properties and images are `PropertyStore.properties` and
 * `PropertyStore.images`; the file storage behind an image is not modelled.
 */
module PropertyViews {
  import opened Wrappers
  import opened Accounts
  import opened PropertyPermissions
  import CoreExceptions

  /** A listing, as far as the filter and the permissions read it. Decimal amounts are reals. */
  datatype Property = Property(
    id: int, dealType: string, status: string, district: string,
    rooms: int, area: real, price: real, realtor: int)

  /** The query parameters of `PropertyFilter`; an absent parameter does not filter. */
  datatype PropertyFilter = PropertyFilter(
    priceMin: Option<real>, priceMax: Option<real>, areaMin: Option<real>, areaMax: Option<real>,
    dealType: Option<string>, status: Option<string>, district: Option<string>, rooms: Option<int>)

  /** `gte`/`lte` on price and area, and exact matches on the four `Meta.fields`. */
  predicate Matches(p: Property, f: PropertyFilter) {
    && (f.priceMin.None? || p.price >= f.priceMin.value)
    && (f.priceMax.None? || p.price <= f.priceMax.value)
    && (f.areaMin.None? || p.area >= f.areaMin.value)
    && (f.areaMax.None? || p.area <= f.areaMax.value)
    && (f.dealType.None? || p.dealType == f.dealType.value)
    && (f.status.None? || p.status == f.status.value)
    && (f.district.None? || p.district == f.district.value)
    && (f.rooms.None? || p.rooms == f.rooms.value)
  }

  /** The filtered queryset, in table order. */
  function Filtered(rows: seq<Property>, f: PropertyFilter): seq<Property> {
    if rows == [] then []
    else (if Matches(rows[0], f) then [rows[0]] else []) + Filtered(rows[1..], f)
  }

  /** The filter keeps exactly the matching rows, and with no parameter it keeps every row. */
  lemma {:induction false} FilteredSpec(rows: seq<Property>, f: PropertyFilter)
    ensures forall p :: p in Filtered(rows, f) <==> p in rows && Matches(p, f)
    ensures f == PropertyFilter(None, None, None, None, None, None, None, None) ==> Filtered(rows, f) == rows
  {
    if rows != [] {
      FilteredSpec(rows[1..], f);
      assert rows == [rows[0]] + rows[1..];
    }
  }

  /** The bounds are inclusive: a listing priced or sized exactly at a bound passes it. */
  lemma BoundsInclusive(p: Property, lo: real, hi: real)
    ensures Matches(p, PropertyFilter(Some(p.price), Some(p.price), None, None, None, None, None, None))
    ensures Matches(p, PropertyFilter(None, None, Some(p.area), Some(p.area), None, None, None, None))
    ensures Matches(p, PropertyFilter(Some(lo), Some(hi), None, None, None, None, None, None)) <==> lo <= p.price <= hi
  {
  }

  /** The owner fields the permission reads: a property has a realtor and no `created_by`. */
  function OwnedBy(p: Property): Owned {
    Owned(Some(p.realtor), None)
  }

  /** Whoever created a listing may change it afterwards. */
  lemma CreatorMayWrite(verb: string, user: User, p: Property)
    requires IsUser(p.realtor, user)
    ensures HasObjectPermission(verb, user, OwnedBy(p))
  {
  }

  /** An uploaded file: its declared content type and its size in bytes. */
  datatype Upload = Upload(contentType: string, size: int)

  /** A stored `PropertyImage`. */
  datatype Image = Image(id: int, property: int, file: Upload)

  /** The status of a reply and the `detail` of its body, absent where the body has none. */
  datatype Reply = Reply(status: int, detail: Option<string>)

  const AllowedTypes: seq<string> := ["image/jpeg", "image/png", "image/webp"]
  const MaxUploadBytes := 10 * 1024 * 1024
  const NotOwner := "You are not the owner."
  const NoFiles := "No files provided. Use 'images' or 'image' fields."
  const BadType := "Only jpeg/png/webp allowed."
  const TooLarge := "Max file size is 10MB."

  /** Why one file is refused, if it is: the type is checked before the size. */
  function Problem(f: Upload): Option<string> {
    if f.contentType !in AllowedTypes then Some(BadType)
    else if f.size > MaxUploadBytes then Some(TooLarge)
    else None
  }

  /** The refusal of the first refused file, if any. */
  function FirstProblem(files: seq<Upload>): Option<string> {
    if files == [] then None
    else if Problem(files[0]).Some? then Problem(files[0])
    else FirstProblem(files[1..])
  }

  /**
   * A list passes exactly when every file passes; when it does not, the
   * reply names the problem of a file all of whose predecessors pass.
   */
  lemma {:induction false} FirstProblemSpec(files: seq<Upload>)
    ensures FirstProblem(files).None? <==> forall i :: 0 <= i < |files| ==> Problem(files[i]).None?
    ensures FirstProblem(files).Some? ==>
      exists i :: 0 <= i < |files| && FirstProblem(files) == Problem(files[i])
        && forall j :: 0 <= j < i ==> Problem(files[j]).None?
  {
    if files != [] {
      FirstProblemSpec(files[1..]);
      if Problem(files[0]).None? && FirstProblem(files).Some? {
        var k :| 0 <= k < |files[1..]| && FirstProblem(files[1..]) == Problem(files[1..][k])
          && forall j :: 0 <= j < k ==> Problem(files[1..][j]).None?;
        assert FirstProblem(files) == Problem(files[k + 1]);
        forall j | 0 <= j < k + 1 ensures Problem(files[j]).None? {
          if j > 0 { assert files[j] == files[1..][j - 1]; }
        }
      }
      if FirstProblem(files).None? {
        forall i | 0 <= i < |files| ensures Problem(files[i]).None? {
          if i > 0 { assert files[i] == files[1..][i - 1]; }
        }
      }
    }
  }

  /** A file of exactly 10 MiB of an allowed type is accepted; one byte more is refused. */
  lemma TenMiBAccepted(t: string)
    requires t in AllowedTypes
    ensures Problem(Upload(t, MaxUploadBytes)).None?
    ensures Problem(Upload(t, MaxUploadBytes + 1)) == Some(TooLarge)
  {
  }

  /** The `for f in files` check, returning at the first refused file. */
  method CheckFiles(files: seq<Upload>) returns (problem: Option<string>)
    ensures problem == FirstProblem(files)
  {
    var i := 0;
    while i < |files|
      invariant 0 <= i <= |files|
      invariant FirstProblem(files[i..]) == FirstProblem(files)
    {
      assert files[i..][1..] == files[i + 1..];
      if files[i].contentType !in AllowedTypes {
        return Some(BadType);
      }
      if files[i].size > MaxUploadBytes {
        return Some(TooLarge);
      }
      i := i + 1;
    }
    return None;
  }

  /** `getlist("images") or getlist("image")`: the first field when it holds any file. */
  function Files(imagesField: seq<Upload>, imageField: seq<Upload>): seq<Upload> {
    if imagesField != [] then imagesField else imageField
  }

  /** The rows created for `files`, one per file in order, with consecutive keys from `firstId`. */
  function NewImages(pk: int, files: seq<Upload>, firstId: int): seq<Image> {
    seq(|files|, i requires 0 <= i < |files| => Image(firstId + i, pk, files[i]))
  }

  /** `get_object()`: the index of the property with key `pk`. */
  function FindProperty(rows: seq<Property>, pk: int): (r: Option<nat>)
    ensures r.Some? ==> r.value < |rows| && rows[r.value].id == pk
    ensures r.None? ==> forall i :: 0 <= i < |rows| ==> rows[i].id != pk
  {
    if rows == [] then None
    else if rows[|rows| - 1].id == pk then Some(|rows| - 1)
    else FindProperty(rows[..|rows| - 1], pk)
  }

  /**
   * The checks a write on a property's images passes through before its own
   * work: authentication (401), the lookup (404), the object permission
   * (403 with the permission's message) and the realtor test of the action
   * (403). `None` when all pass.
   */
  function Gate(rows: seq<Property>, user: User, verb: string, pk: int): Option<Reply> {
    if !user.isAuthenticated then Some(Reply(401, Some(CoreExceptions.AuthRequired)))
    else
      var at := FindProperty(rows, pk);
      if at.None? then Some(Reply(404, None))
      else if !HasObjectPermission(verb, user, OwnedBy(rows[at.value])) then Some(Reply(403, Some(Message)))
      else if !IsUser(rows[at.value].realtor, user) then Some(Reply(403, Some(NotOwner)))
      else None
  }

  /** The reply of `upload_images`. */
  function UploadReply(rows: seq<Property>, user: User, pk: int, imagesField: seq<Upload>, imageField: seq<Upload>): Reply {
    var gate := Gate(rows, user, "POST", pk);
    var files := Files(imagesField, imageField);
    if gate.Some? then gate.value
    else if files == [] then Reply(400, Some(NoFiles))
    else if FirstProblem(files).Some? then Reply(400, FirstProblem(files))
    else Reply(201, None)
  }

  /** Only the realtor of a listing may add images to it; staff who are not its realtor are refused too. */
  lemma UploadOnlyByRealtor(rows: seq<Property>, user: User, pk: int, imagesField: seq<Upload>, imageField: seq<Upload>)
    ensures var r := UploadReply(rows, user, pk, imagesField, imageField);
      r.status == 201 ==> exists i :: 0 <= i < |rows| && rows[i].id == pk && IsUser(rows[i].realtor, user)
  {
    var at := FindProperty(rows, pk);
    if UploadReply(rows, user, pk, imagesField, imageField).status == 201 {
      assert rows[at.value].id == pk && IsUser(rows[at.value].realtor, user);
    }
  }

  /** A user who is not the realtor is refused before any file is looked at, whatever the files. */
  lemma NonOwnerRefusedFirst(rows: seq<Property>, user: User, pk: int, f1: seq<Upload>, f2: seq<Upload>, g1: seq<Upload>, g2: seq<Upload>)
    requires user.isAuthenticated
    requires exists i :: 0 <= i < |rows| && rows[i].id == pk
    requires forall i :: 0 <= i < |rows| && rows[i].id == pk ==> !IsUser(rows[i].realtor, user)
    ensures UploadReply(rows, user, pk, f1, f2).status == 403
    ensures UploadReply(rows, user, pk, f1, f2) == UploadReply(rows, user, pk, g1, g2)
  {
  }

  /** For the realtor, the files alone decide: none is a 400, any refused file is a 400, and otherwise 201. */
  lemma RealtorUploadOutcome(rows: seq<Property>, user: User, pk: int, imagesField: seq<Upload>, imageField: seq<Upload>)
    requires user.isAuthenticated
    requires exists i :: 0 <= i < |rows| && rows[i].id == pk && IsUser(rows[i].realtor, user)
    requires forall i, j :: 0 <= i < |rows| && 0 <= j < |rows| && rows[i].id == rows[j].id ==> i == j
    ensures var files := Files(imagesField, imageField);
      UploadReply(rows, user, pk, imagesField, imageField) ==
        if files == [] then Reply(400, Some(NoFiles))
        else if exists i :: 0 <= i < |files| && Problem(files[i]).Some? then Reply(400, FirstProblem(files))
        else Reply(201, None)
  {
    var at := FindProperty(rows, pk);
    var k :| 0 <= k < |rows| && rows[k].id == pk && IsUser(rows[k].realtor, user);
    assert at.value == k;
    assert HasObjectPermission("POST", user, OwnedBy(rows[k]));
    FirstProblemSpec(Files(imagesField, imageField));
  }

  /** The `images` field wins: the `image` field is read only when `images` is empty. */
  lemma ImagesFieldWins(rows: seq<Property>, user: User, pk: int, imagesField: seq<Upload>, a: seq<Upload>, b: seq<Upload>)
    requires imagesField != []
    ensures UploadReply(rows, user, pk, imagesField, a) == UploadReply(rows, user, pk, imagesField, b)
  {
  }

  /** `get_object_or_404(PropertyImage, id=image_id, property=prop)`. */
  function FindImage(images: seq<Image>, id: int, pk: int): (r: Option<nat>)
    ensures r.Some? ==> r.value < |images| && images[r.value].id == id && images[r.value].property == pk
    ensures r.None? ==> forall i :: 0 <= i < |images| ==> !(images[i].id == id && images[i].property == pk)
  {
    if images == [] then None
    else if images[|images| - 1].id == id && images[|images| - 1].property == pk then Some(|images| - 1)
    else FindImage(images[..|images| - 1], id, pk)
  }

  /** The reply of `delete_image`. */
  function DeleteReply(rows: seq<Property>, images: seq<Image>, user: User, pk: int, imageId: int): Reply {
    var gate := Gate(rows, user, "DELETE", pk);
    if gate.Some? then gate.value
    else if FindImage(images, imageId, pk).None? then Reply(404, None)
    else Reply(204, None)
  }

  /** An image is deleted only through the listing it belongs to: the id of another listing's image is a 404. */
  lemma DeleteOnlyOwnImage(rows: seq<Property>, images: seq<Image>, user: User, pk: int, imageId: int)
    requires forall i :: 0 <= i < |images| && images[i].id == imageId ==> images[i].property != pk
    ensures DeleteReply(rows, images, user, pk, imageId).status in {401, 403, 404}
  {
  }

  /** Property keys are positive, below `next`, and unique. */
  predicate PropertyKeys(rows: seq<Property>, next: int) {
    && (forall i :: 0 <= i < |rows| ==> 0 < rows[i].id < next)
    && (forall i, j :: 0 <= i < |rows| && 0 <= j < |rows| && rows[i].id == rows[j].id ==> i == j)
  }

  /** Image keys are positive, below `next`, and unique. */
  predicate ImageKeys(images: seq<Image>, next: int) {
    && (forall i :: 0 <= i < |images| ==> 0 < images[i].id < next)
    && (forall i, j :: 0 <= i < |images| && 0 <= j < |images| && images[i].id == images[j].id ==> i == j)
  }

  lemma AppendFreshProperty(rows: seq<Property>, next: int, p: Property)
    requires next > 0 && PropertyKeys(rows, next) && p.id == next
    ensures PropertyKeys(rows + [p], next + 1)
  {
  }

  lemma AppendFreshImage(images: seq<Image>, next: int, im: Image)
    requires next > 0 && ImageKeys(images, next) && im.id == next
    ensures ImageKeys(images + [im], next + 1)
  {
  }

  /** `img.delete()`: the row at `k` removed, the others in order. */
  function Removed(images: seq<Image>, k: nat): seq<Image>
    requires k < |images|
  {
    images[..k] + images[k + 1..]
  }

  /** Removing a row keeps the keys unique, and the removed key is gone from the table. */
  lemma {:induction false} RemovedKeepsKeys(images: seq<Image>, next: int, k: nat)
    requires k < |images| && ImageKeys(images, next)
    ensures ImageKeys(Removed(images, k), next)
    ensures forall i :: 0 <= i < |Removed(images, k)| ==> Removed(images, k)[i].id != images[k].id
  {
    var rest := Removed(images, k);
    assert forall i :: 0 <= i < |rest| ==> rest[i] == if i < k then images[i] else images[i + 1];
  }

  class PropertyStore {
    var properties: seq<Property>
    var images: seq<Image>
    var nextPropertyId: int
    var nextImageId: int

    /** Keys are positive, below the next key, and unique. */
    ghost predicate Valid()
      reads this
    {
      && nextPropertyId > 0 && nextImageId > 0
      && PropertyKeys(properties, nextPropertyId)
      && ImageKeys(images, nextImageId)
    }

    constructor ()
      ensures Valid() && properties == [] && images == []
    {
      properties := [];
      images := [];
      nextPropertyId := 1;
      nextImageId := 1;
    }

    /**
     * `create` with `perform_create`: the listing is saved with the user as
     * realtor under a new key. The view has no authentication check, so an
     * anonymous request reaches the save and fails there (a server error).
     */
    method Create(user: User, data: Property) returns (status: int)
      requires Valid()
      modifies this`properties, this`nextPropertyId
      ensures Valid()
      ensures user.id.None? ==> status == 500 && properties == old(properties)
      ensures user.id.Some? ==>
        status == 201 && properties == old(properties) + [data.(id := old(nextPropertyId), realtor := user.id.value)]
    {
      if user.id.None? {
        return 500;
      }
      AppendFreshProperty(properties, nextPropertyId, data.(id := nextPropertyId, realtor := user.id.value));
      properties := properties + [data.(id := nextPropertyId, realtor := user.id.value)];
      nextPropertyId := nextPropertyId + 1;
      return 201;
    }

    /**
     * `upload_images`: the reply is `UploadReply`; on a 201 one image per
     * file is stored, in order, and on any other reply nothing is.
     */
    method UploadImages(user: User, pk: int, imagesField: seq<Upload>, imageField: seq<Upload>) returns (reply: Reply)
      requires Valid()
      modifies this`images, this`nextImageId
      ensures Valid()
      ensures reply == UploadReply(properties, user, pk, imagesField, imageField)
      ensures reply.status == 201 ==>
        images == old(images) + NewImages(pk, Files(imagesField, imageField), old(nextImageId))
      ensures reply.status != 201 ==> images == old(images)
    {
      var gate := Gate(properties, user, "POST", pk);
      if gate.Some? {
        return gate.value;
      }
      var files := if imagesField != [] then imagesField else imageField;
      if files == [] {
        return Reply(400, Some(NoFiles));
      }
      var problem := CheckFiles(files);
      if problem.Some? {
        return Reply(400, problem);
      }
      StoreImages(pk, files);
      return Reply(201, None);
    }

    /** `[PropertyImage.objects.create(property=prop, image=f) for f in files]`. */
    method StoreImages(pk: int, files: seq<Upload>)
      requires nextImageId > 0 && ImageKeys(images, nextImageId)
      modifies this`images, this`nextImageId
      ensures nextImageId == old(nextImageId) + |files| && ImageKeys(images, nextImageId)
      ensures images == old(images) + NewImages(pk, files, old(nextImageId))
    {
      var i := 0;
      while i < |files|
        invariant 0 <= i <= |files|
        invariant images == old(images) + NewImages(pk, files[..i], old(nextImageId))
        invariant nextImageId == old(nextImageId) + i
        invariant ImageKeys(images, nextImageId)
      {
        AppendFreshImage(images, nextImageId, Image(nextImageId, pk, files[i]));
        assert NewImages(pk, files[..i + 1], old(nextImageId))
          == NewImages(pk, files[..i], old(nextImageId)) + [Image(nextImageId, pk, files[i])];
        images := images + [Image(nextImageId, pk, files[i])];
        nextImageId := nextImageId + 1;
        i := i + 1;
      }
      assert files[..i] == files;
    }

    /**
     * `delete_image`: the reply is `DeleteReply`; on a 204 exactly the
     * image with that id is removed and the others keep their order.
     */
    method DeleteImage(user: User, pk: int, imageId: int) returns (reply: Reply)
      requires Valid()
      modifies this`images
      ensures Valid()
      ensures reply == DeleteReply(properties, old(images), user, pk, imageId)
      ensures reply.status == 204 ==>
        var k := FindImage(old(images), imageId, pk).value;
        images == Removed(old(images), k)
      ensures reply.status != 204 ==> images == old(images)
    {
      var gate := Gate(properties, user, "DELETE", pk);
      if gate.Some? {
        return gate.value;
      }
      var at := FindImage(images, imageId, pk);
      if at.None? {
        return Reply(404, None);
      }
      RemovedKeepsKeys(images, nextImageId, at.value);
      images := Removed(images, at.value);
      return Reply(204, None);
    }
  }
}
