# Portfolio API — a Dafny model of its request logic

The service stores portfolio projects (title, description, an embedded image) in the `projects`
collection of a document database. Anyone can list them. Creating, editing and deleting them is
gated by one shared admin bearer token. This project models the service's decision logic and
proves properties about it:

- the admin token check (`AdminAuth`);
- the one-time credential resolution that initialises the database client (`Credentials`);
- the image handling shared by create and edit (`ImageUpload`). This covers the Base64 encoding
  of section 4 of RFC 4648 (`Base64`), the `data:<type>;base64,<payload>` URI, and the
  `len(b64) * 3 / 4 > 900 * 1024` size test;
- the four project handlers, over a `ProjectStore` class whose `docs` field is the collection as a
  map from document id to record (`Projects`).

Each admin handler takes the presented token and the configured secret. It runs the token check
first, so its contract also states that a refused request leaves the store unchanged. Inputs
that come from outside the program are parameters:

- environment variables;
- file existence and the outcome of loading a credential;
- the current time;
- the document store's query order.

## Model

| member | source | states |
|---|---|---|
| `AdminAuth.VerifyAdminToken` | admin_auth.py:10-18 | passes iff the secret is set, non-empty and equal to the token; 500 "Server misconfigured" iff the secret is unset or empty; 401 "Invalid admin token" iff configured and different |
| `AdminAuth.MisconfigurationTakesPrecedence` | admin_auth.py:13-15 | with no usable secret the answer is 500 whatever the token, so never 401 and never success |
| `AdminAuth.OneCharacterOffIsRejected` | admin_auth.py:16-17 | a token differing from the secret in one character (case-sensitive) gets 401 |
| `AdminAuth.EmptyTokenNeverAuthorises` | admin_auth.py:13-18 | the empty token fails under every configuration |
| `Base64.Encode` | main.py:119 | padded Base64 of n bytes has exactly 4*ceil(n/3) characters, all from the alphabet or `=` |
| `Base64.EncodedLengthBounds` | main.py:123 | three quarters of the encoded length is at least the raw byte count and at most two bytes above it |
| `ImageUpload.TooLargeBoundary` | main.py:123-124 | the size test itself is the predicate `ImageUpload.TooLarge`; its integer form 3*len > 4*921600 agrees with the estimate len*3/4 > 900*1024 computed by true division, and rejects exactly the Base64 texts of more than 1228800 characters |
| `ImageUpload.TooLargeIffRawAboveLimit` | main.py:119-124 | on padded Base64 text the test rejects exactly the images of more than 921600 raw bytes |
| `ImageUpload.ContentType` | main.py:120 | a missing or empty content type becomes "image/jpeg"; any other is kept |
| `ImageUpload.DataUri` | main.py:121 | the URI is "data:", then the content type, then ";base64,", then the payload, and nothing else |
| `ImageUpload.PayloadOfDataUri` | main.py:121 | the payload after the last comma of the data URI is the Base64 text again |
| `ImageUpload.AcceptedImageWithinLimit` | main.py:119-125 | the payload read back from an accepted image's data URI passes the size check again |
| `ImageUpload.EncodeImage` | main.py:119-125 | accepts iff the upload has at most 921600 bytes, else 400 "Imagem muito grande..."; an accepted URI carries the encoding as its payload |
| `Credentials.Resolve` | main.py:28-67 | the first present source decides: used if it loads, fatal if not; absent sources fall through; nothing found iff all are absent |
| `Credentials.LaterProbesIgnored` | main.py:29-62 | once a source is present, what the later sources hold does not change the outcome |
| `Credentials.CredentialsPath` | main.py:53 | the file path is GOOGLE_APPLICATION_CREDENTIALS when set, else "serviceAccount.json" |
| `Credentials.Probes` | main.py:28-54 | each environment source counts as present exactly when its variable is set and non-empty; the file counts when it exists |
| `Credentials.InitFromEnv` | main.py:16-67 | no-op iff already initialised; otherwise Base64 variable, then raw JSON, then file, each loaded or fatal; "no credentials" error iff none is present |
| `Credentials.InitIsIdempotent` | main.py:25-26 | after a successful initialisation the next call does nothing, whatever the environment |
| `Credentials.MalformedB64IsFatal` | main.py:29-39 | a set but unloadable Base64 variable raises, whatever the raw JSON variable and the file hold |
| `Projects.NewDocumentId` | main.py:134 | the new document's id is not already in the collection |
| `Projects.BuildUpdate` | main.py:154-176 | the update holds exactly the supplied title, description and encoded image plus `updated_at`; its keys are the supplied subsequence of title, description, image_data followed by updated_at; 400 on an image over 921600 bytes, then 400 when nothing was supplied |
| `Projects.SuppliedFieldsOrder` | main.py:154-180 | `updated_fields` (the function `Projects.SuppliedFields`) names title, description and image_data exactly when each was supplied, each once, in insertion order, and ends with updated_at |
| `Projects.Apply` | main.py:178 | the store's partial update replaces exactly the fields the update carries, keeps every other field, and never changes `created_at` |
| `Projects.ApplyKeepsWellFormed` | main.py:178 | a partial update whose image passes the size check keeps a record well-formed |
| `Projects.ProjectStore.GetProjects` | main.py:90-107 | entry i shows the i-th document of the store's stream, so the store's order is kept, ties included; one entry per document that has `created_at`, no repeats, newest first; missing strings shown as ""; with every record well-formed, exactly one entry per record |
| `Projects.ProjectStore.AddProject` | main.py:110-137 | succeeds iff the token passes and the image has at most 921600 bytes; then answers `Created` (message "created") and adds exactly one record under an unused id with title, description, data URI, `created_at`; any failure leaves the store unchanged; keeps every record well-formed |
| `Projects.ProjectStore.EditProject` | main.py:140-180 | errors in the order token, 404, image too large, no fields, each leaving the store unchanged; on success only the supplied fields and `updated_at` of that record change; `created_at` is kept; the answer is `Updated` (message "updated") whose `updated_fields` is the supplied subsequence of title, description, image_data followed by updated_at |
| `Projects.ProjectStore.DeleteProject` | main.py:183-192 | after the token check, 404 on an unknown id with the store unchanged; otherwise answers `Deleted` (message "Project deleted") and removes exactly that id |

## Left out

- The database client and SDK: the collection is the `docs` map. A document's auto-generated id
  is any id not in use; the store's 20-character random id format is not modelled.
- `ProjectStore.GetProjects`: the ordering of `order_by("created_at", DESCENDING)` is done by the
  store. The model takes the store's stream of ids as a parameter and requires it to be that
  order: every document that has `created_at`, each once, newest first. Documents without
  `created_at` are not streamed, as with the store's ordered queries. Ties between equal
  timestamps are left in the order the store chose.
- Credential loading internals: Base64 decoding, JSON parsing, `credentials.Certificate` and
  `initialize_app`. Whether a source loads is a supplied predicate, and any exception inside a
  source's `try` block counts as "does not load".
- Environment variables, `load_dotenv`, `os.path.exists` and `datetime.utcnow()`: all are
  parameters.
- FastAPI routing, multipart form parsing, `await image.read()`, and the `HTTPBearer` header
  extraction. The handlers' inputs are the values FastAPI passes after extraction. Before
  `verify_admin_token` runs, HTTPBearer already refuses a request with no Authorization header,
  a scheme other than Bearer, or an empty credential. So the model's 500/401 answers for the
  empty token describe the token check alone, not what the service answers for such a request.
  Likewise, FastAPI may pass an optional form field sent as an empty string to `edit_project`
  as `None`. The model's rule that `Some("")` counts as supplied is the handler's own rule
  (`is not None`), not a statement about what clients send.
- The `print` logging, the CORS middleware, and the constant `GET /health` endpoint.
- Failures of the document store itself, and races between a handler's existence check and
  its write. These are concurrency and I/O, outside the model.
- `ImageUpload.ApproxSize`: Python computes `len(b64) * 3 / 4` as a float. The model uses exact
  real division, which is the same for lengths below 2^53 / 3.
