/** The `projects` collection and the HTTP handlers that read and change it. The document store
    is an in-memory map from document id to record; each admin handler first runs the admin
    token check and touches the store only when it passes. */
module Projects {
  import opened Wrappers
  import opened Http
  import AdminAuth
  import ImageUpload
  import Base64

  /** A UTC instant, as supplied by the caller in place of `datetime.utcnow()`. */
  type Timestamp = int

  /** A stored document. Every field is optional because a document need not have been written
      by this service; `updated_at` is absent until the first edit. */
  datatype Project = Project(
    title: Option<string>,
    description: Option<string>,
    imageData: Option<string>,
    createdAt: Option<Timestamp>,
    updatedAt: Option<Timestamp>)

  /** A record as this service writes it: title, description, image and creation time present,
      and an image whose Base64 payload passes the size check. */
  predicate WellFormed(p: Project) {
    && p.title.Some? && p.description.Some? && p.imageData.Some? && p.createdAt.Some?
    && !ImageUpload.TooLarge(|ImageUpload.Payload(p.imageData.value)|)
  }

  /** The keys an edit may write, in the order the edit handler inserts them. */
  datatype Field = Title | Description | ImageData | UpdatedAt {
    /** Position of the key in the order the edit handler inserts keys. */
    function Rank(): nat {
      match this
      case Title => 0
      case Description => 1
      case ImageData => 2
      case UpdatedAt => 3
    }
  }

  /** The fields of a partial update; `None` means "not supplied". */
  datatype Patch = Patch(
    title: Option<string>,
    description: Option<string>,
    imageData: Option<string>,
    updatedAt: Option<Timestamp>)

  /** `updated_fields`: the supplied keys among title, description and image_data, in that
      order, followed by updated_at. */
  function SuppliedFields(hasTitle: bool, hasDescription: bool, hasImage: bool): seq<Field> {
    var keys := if hasTitle then [Title] else [];
    var keys := if hasDescription then keys + [Description] else keys;
    var keys := if hasImage then keys + [ImageData] else keys;
    keys + [UpdatedAt]
  }

  /** `updated_fields` lists each supplied key once, in insertion order, and ends with
      updated_at; a key that was not supplied is not listed. */
  lemma SuppliedFieldsOrder(hasTitle: bool, hasDescription: bool, hasImage: bool)
    ensures var keys := SuppliedFields(hasTitle, hasDescription, hasImage);
            && (Title in keys <==> hasTitle)
            && (Description in keys <==> hasDescription)
            && (ImageData in keys <==> hasImage)
            && keys[|keys| - 1] == UpdatedAt
            && forall i, j | 0 <= i < j < |keys| :: keys[i].Rank() < keys[j].Rank()
  {
  }

  const EMPTY_PATCH := Patch(None, None, None, None)

  /** The document store's partial update: supplied fields replace, the others stay. */
  function Apply(p: Project, u: Patch): (q: Project)
    ensures u.title.Some? ==> q.title == u.title
    ensures u.title.None? ==> q.title == p.title
    ensures u.description.Some? ==> q.description == u.description
    ensures u.description.None? ==> q.description == p.description
    ensures u.imageData.Some? ==> q.imageData == u.imageData
    ensures u.imageData.None? ==> q.imageData == p.imageData
    ensures u.updatedAt.Some? ==> q.updatedAt == u.updatedAt
    ensures u.updatedAt.None? ==> q.updatedAt == p.updatedAt
    ensures q.createdAt == p.createdAt
  {
    Project(
      if u.title.Some? then u.title else p.title,
      if u.description.Some? then u.description else p.description,
      if u.imageData.Some? then u.imageData else p.imageData,
      p.createdAt,
      if u.updatedAt.Some? then u.updatedAt else p.updatedAt)
  }

  /** A partial update keeps a record well-formed when any image it writes passes the size check. */
  lemma ApplyKeepsWellFormed(p: Project, u: Patch)
    requires WellFormed(p)
    requires u.imageData.Some? ==> !ImageUpload.TooLarge(|ImageUpload.Payload(u.imageData.value)|)
    ensures WellFormed(Apply(p, u))
  {
  }

  /** The successful answers of the admin handlers. */
  datatype Response = Created(id: string) | Updated(id: string, updatedFields: seq<Field>) | Deleted(id: string) {
    function Message(): string {
      match this
      case Created(_) => "created"
      case Updated(_, _) => "updated"
      case Deleted(_) => "Project deleted"
    }
  }

  /** One element of the list endpoint's answer. */
  datatype ProjectOut = ProjectOut(
    id: string,
    title: string,
    description: string,
    imageData: string,
    createdAt: Option<Timestamp>)

  /** `e` is how the list endpoint shows document `id`: missing strings become "". */
  predicate Shows(e: ProjectOut, id: string, p: Project) {
    && e.id == id
    && e.title == p.title.GetOr("")
    && e.description == p.description.GetOr("")
    && e.imageData == p.imageData.GetOr("")
    && e.createdAt == p.createdAt
  }

  /** The documents a query ordered on `created_at` can return: those that have the field. */
  function StampedIds(docs: map<string, Project>): set<string> {
    set id | id in docs && docs[id].createdAt.Some?
  }

  function IdsOf(projects: seq<ProjectOut>): set<string> {
    set i | 0 <= i < |projects| :: projects[i].id
  }

  /** The stream of `order_by("created_at", DESCENDING)`: every document that has `created_at`,
      each once, newest first. */
  predicate IsNewestFirst(docs: map<string, Project>, order: seq<string>) {
    && (forall i | 0 <= i < |order| :: order[i] in docs && docs[order[i]].createdAt.Some?)
    && (forall id | id in StampedIds(docs) :: id in order)
    && (forall i, j | 0 <= i < j < |order| ::
          order[i] != order[j] && docs[order[i]].createdAt.value >= docs[order[j]].createdAt.value)
  }

  /** A sequence without repetitions has as many elements as its set of elements. */
  lemma {:induction false} DistinctCardinality(s: seq<string>)
    requires forall i, j | 0 <= i < j < |s| :: s[i] != s[j]
    ensures |set i | 0 <= i < |s| :: s[i]| == |s|
  {
    if s != [] {
      var init := s[..|s| - 1];
      DistinctCardinality(init);
      var all := set i | 0 <= i < |s| :: s[i];
      var before := set i | 0 <= i < |init| :: init[i];
      assert all == before + {s[|s| - 1]};
      assert s[|s| - 1] !in before;
    }
  }

  /** Some id that is not in use: the store can always name a new document. */
  lemma FreshIdExists(taken: set<string>)
    ensures exists id: string :: id !in taken
  {
    var id := LongerThanAll(taken);
    assert id !in taken;
  }

  ghost function LongerThanAll(taken: set<string>): (s: string)
    ensures forall k | k in taken :: |k| < |s|
    decreases taken
  {
    if taken == {} then ""
    else
      var k :| k in taken;
      var rest := LongerThanAll(taken - {k});
      if |k| < |rest| then rest else rest + seq(|k| + 1 - |rest|, _ => 'x')
  }

  /** The document store's choice of an id for a new document: any id not in use. */
  method NewDocumentId(taken: set<string>) returns (id: string)
    ensures id !in taken
  {
    FreshIdExists(taken);
    id :| id !in taken;
  }

  /** The update an edit writes, built key by key: the supplied title, description and encoded
      image, then `updated_at`. Fails with 400 on an oversized image, and then with 400 when
      nothing was supplied. */
  method BuildUpdate(title: Option<string>, description: Option<string>, image: Option<ImageUpload.Upload>,
                     now: Timestamp)
    returns (r: Result<(Patch, seq<Field>), HttpError>)
    ensures image.Some? && |image.value.content| > ImageUpload.MAX_IMAGE_BYTES ==> r == Failure(IMAGE_TOO_LARGE)
    ensures title.None? && description.None? && image.None? ==> r == Failure(NO_FIELDS)
    ensures r.Success? <==>
              && (title.Some? || description.Some? || image.Some?)
              && (image.Some? ==> |image.value.content| <= ImageUpload.MAX_IMAGE_BYTES)
    ensures r.Success? ==>
              var (update, fields) := r.value;
              && update.title == title && update.description == description
              && update.imageData ==
                   (if image.Some?
                    then Some(ImageUpload.DataUri(ImageUpload.ContentType(image.value.contentType),
                                                  Base64.Encode(image.value.content)))
                    else None)
              && update.updatedAt == Some(now)
              && fields == SuppliedFields(title.Some?, description.Some?, image.Some?)
  {
    var update := EMPTY_PATCH;
    var fields: seq<Field> := [];
    if title.Some? {
      update := update.(title := title);
      fields := fields + [Title];
    }
    if description.Some? {
      update := update.(description := description);
      fields := fields + [Description];
    }
    if image.Some? {
      var encoded := ImageUpload.EncodeImage(image.value);
      if encoded.Failure? {
        return Failure(encoded.error);
      }
      update := update.(imageData := Some(encoded.value));
      fields := fields + [ImageData];
    }
    assert fields + [UpdatedAt] == SuppliedFields(title.Some?, description.Some?, image.Some?);
    if fields == [] {
      return Failure(NO_FIELDS);
    }
    update := update.(updatedAt := Some(now));
    fields := fields + [UpdatedAt];
    r := Success((update, fields));
  }

  /** The `projects` collection. */
  class ProjectStore {
    var docs: map<string, Project>

    constructor ()
      ensures docs == map[]
    {
      docs := map[];
    }

    /** Every record is as this service writes it. */
    predicate AllWellFormed()
      reads this
    {
      forall id | id in docs :: WellFormed(docs[id])
    }

    /** `GET /projects`: one entry per document of the query stream `order`, in stream order,
        with missing strings shown as "". */
    method GetProjects(order: seq<string>) returns (projects: seq<ProjectOut>)
      requires IsNewestFirst(docs, order)
      ensures |projects| == |order|
      ensures forall i | 0 <= i < |projects| ::
                projects[i].id in docs && Shows(projects[i], projects[i].id, docs[projects[i].id])
      ensures forall i | 0 <= i < |projects| :: Shows(projects[i], order[i], docs[order[i]])
      ensures IdsOf(projects) == StampedIds(docs)
      ensures forall i, j | 0 <= i < j < |projects| ::
                projects[i].id != projects[j].id
                && projects[i].createdAt.Some? && projects[j].createdAt.Some?
                && projects[i].createdAt.value >= projects[j].createdAt.value
      ensures AllWellFormed() ==> |projects| == |docs|
    {
      projects := [];
      var i := 0;
      while i < |order|
        invariant 0 <= i <= |order|
        invariant |projects| == i
        invariant forall j | 0 <= j < i :: Shows(projects[j], order[j], docs[order[j]])
      {
        var id := order[i];
        var data := docs[id];
        projects := projects + [ProjectOut(
          id, data.title.GetOr(""), data.description.GetOr(""), data.imageData.GetOr(""), data.createdAt)];
        i := i + 1;
      }
      assert forall j | 0 <= j < |order| :: projects[j].id == order[j];
      assert IdsOf(projects) == StampedIds(docs) by {
        forall id | id in StampedIds(docs) ensures id in IdsOf(projects) {
          var j :| 0 <= j < |order| && order[j] == id;
        }
      }
      if AllWellFormed() {
        assert StampedIds(docs) == docs.Keys;
        DistinctCardinality(order);
        assert IdsOf(projects) == set j | 0 <= j < |order| :: order[j];
      }
    }

    /** `POST /admin/projects`: after the token check and the image size check, adds one record
        under a new id; nothing else in the store changes. */
    method AddProject(token: string, adminToken: Option<string>, title: string, description: string,
                      image: ImageUpload.Upload, now: Timestamp)
      returns (r: Result<Response, HttpError>)
      modifies this
      ensures r.Failure? ==> docs == old(docs)
      ensures AdminAuth.VerifyAdminToken(token, adminToken).Fail? ==>
                r == Failure(AdminAuth.VerifyAdminToken(token, adminToken).error)
      ensures AdminAuth.VerifyAdminToken(token, adminToken).Pass? && |image.content| > ImageUpload.MAX_IMAGE_BYTES ==>
                r == Failure(IMAGE_TOO_LARGE)
      ensures r.Success? <==>
                AdminAuth.VerifyAdminToken(token, adminToken).Pass? && |image.content| <= ImageUpload.MAX_IMAGE_BYTES
      ensures r.Success? ==>
                && r.value.Created? && r.value.Message() == "created" && r.value.id !in old(docs)
                && docs == old(docs)[r.value.id := Project(
                     Some(title), Some(description),
                     Some(ImageUpload.DataUri(ImageUpload.ContentType(image.contentType), Base64.Encode(image.content))),
                     Some(now), None)]
                && |docs| == |old(docs)| + 1
      ensures old(AllWellFormed()) ==> AllWellFormed()
    {
      var auth := AdminAuth.VerifyAdminToken(token, adminToken);
      if auth.Fail? {
        return Failure(auth.error);
      }
      var encoded := ImageUpload.EncodeImage(image);
      if encoded.Failure? {
        return Failure(encoded.error);
      }
      var record := Project(Some(title), Some(description), Some(encoded.value), Some(now), None);
      var id := NewDocumentId(docs.Keys);
      docs := docs[id := record];
      r := Success(Created(id));
    }

    /** `PUT /admin/projects/{id}`: after the token check, fails with 404 on an unknown id, then
        with 400 on an oversized image, then with 400 when nothing was supplied; otherwise
        replaces exactly the supplied fields of that one record and stamps `updated_at`. */
    method EditProject(token: string, adminToken: Option<string>, id: string, title: Option<string>,
                       description: Option<string>, image: Option<ImageUpload.Upload>, now: Timestamp)
      returns (r: Result<Response, HttpError>)
      modifies this
      ensures r.Failure? ==> docs == old(docs)
      ensures AdminAuth.VerifyAdminToken(token, adminToken).Fail? ==>
                r == Failure(AdminAuth.VerifyAdminToken(token, adminToken).error)
      ensures AdminAuth.VerifyAdminToken(token, adminToken).Pass? && id !in old(docs) ==>
                r == Failure(PROJECT_NOT_FOUND)
      ensures AdminAuth.VerifyAdminToken(token, adminToken).Pass? && id in old(docs)
              && image.Some? && |image.value.content| > ImageUpload.MAX_IMAGE_BYTES ==>
                r == Failure(IMAGE_TOO_LARGE)
      ensures AdminAuth.VerifyAdminToken(token, adminToken).Pass? && id in old(docs)
              && title.None? && description.None? && image.None? ==>
                r == Failure(NO_FIELDS)
      ensures r.Success? <==>
                && AdminAuth.VerifyAdminToken(token, adminToken).Pass? && id in old(docs)
                && (title.Some? || description.Some? || image.Some?)
                && (image.Some? ==> |image.value.content| <= ImageUpload.MAX_IMAGE_BYTES)
      ensures r.Success? ==>
                && r.value == Updated(id,
                     SuppliedFields(title.Some?, description.Some?, image.Some?))
                && r.value.Message() == "updated"
                && id in docs && docs == old(docs)[id := docs[id]]
                && docs[id].title == (if title.Some? then title else old(docs)[id].title)
                && docs[id].description == (if description.Some? then description else old(docs)[id].description)
                && docs[id].imageData ==
                     (if image.Some?
                      then Some(ImageUpload.DataUri(ImageUpload.ContentType(image.value.contentType),
                                                    Base64.Encode(image.value.content)))
                      else old(docs)[id].imageData)
                && docs[id].createdAt == old(docs)[id].createdAt
                && docs[id].updatedAt == Some(now)
      ensures old(AllWellFormed()) ==> AllWellFormed()
    {
      var auth := AdminAuth.VerifyAdminToken(token, adminToken);
      if auth.Fail? {
        return Failure(auth.error);
      }
      if id !in docs {
        return Failure(PROJECT_NOT_FOUND);
      }
      var built := BuildUpdate(title, description, image, now);
      if built.Failure? {
        return Failure(built.error);
      }
      var update, fields := built.value.0, built.value.1;
      var record := Apply(docs[id], update);
      if AllWellFormed() {
        if image.Some? {
          ImageUpload.AcceptedImageWithinLimit(image.value);
        }
        ApplyKeepsWellFormed(docs[id], update);
      }
      docs := docs[id := record];
      r := Success(Updated(id, fields));
    }

    /** `DELETE /admin/projects/{id}`: after the token check, fails with 404 on an unknown id;
        otherwise removes that record and no other. */
    method DeleteProject(token: string, adminToken: Option<string>, id: string)
      returns (r: Result<Response, HttpError>)
      modifies this
      ensures r.Failure? ==> docs == old(docs)
      ensures AdminAuth.VerifyAdminToken(token, adminToken).Fail? ==>
                r == Failure(AdminAuth.VerifyAdminToken(token, adminToken).error)
      ensures AdminAuth.VerifyAdminToken(token, adminToken).Pass? && id !in old(docs) ==>
                r == Failure(PROJECT_NOT_FOUND)
      ensures r.Success? <==> AdminAuth.VerifyAdminToken(token, adminToken).Pass? && id in old(docs)
      ensures r.Success? ==>
                r == Success(Deleted(id)) && r.value.Message() == "Project deleted" && docs == old(docs) - {id}
      ensures old(AllWellFormed()) ==> AllWellFormed()
    {
      var auth := AdminAuth.VerifyAdminToken(token, adminToken);
      if auth.Fail? {
        return Failure(auth.error);
      }
      if id !in docs {
        return Failure(PROJECT_NOT_FOUND);
      }
      docs := docs - {id};
      r := Success(Deleted(id));
    }
  }
}
