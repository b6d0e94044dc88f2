/** The image handling shared by the create and edit handlers: Base64 encoding of the uploaded
    bytes, the data URI stored in `image_data`, and the approximate size check against 900 KiB. */
module ImageUpload {
  import opened Wrappers
  import opened Http
  import Base64

  const MAX_IMAGE_BYTES: nat := 900 * 1024
  const DEFAULT_CONTENT_TYPE: string := "image/jpeg"

  /** An uploaded file: its bytes and the content type the client declared, if any. */
  datatype Upload = Upload(content: seq<Base64.Byte>, contentType: Option<string>)

  /** The size estimate `len(b64) * 3 / 4`, computed with true (not integer) division. */
  function ApproxSize(b64Length: nat): real {
    (b64Length as real) * 3.0 / 4.0
  }

  /** The rejection test `approx_size > 900 * 1024`, cleared of the division: the estimate
      3L/4 exceeds the limit exactly when 3L exceeds four times it. */
  predicate TooLarge(b64Length: nat) {
    3 * b64Length > 4 * MAX_IMAGE_BYTES
  }

  /** The integer test agrees with the estimate computed by true division, and puts the
      boundary at 1228800 characters: that many pass, one more fails. */
  lemma TooLargeBoundary(b64Length: nat)
    ensures TooLarge(b64Length) <==> ApproxSize(b64Length) > MAX_IMAGE_BYTES as real
    ensures TooLarge(b64Length) <==> b64Length > 1228800
  {
  }

  /** On padded Base64 text the estimate rejects exactly the images of more than 921600 raw
      bytes: the over-estimate never turns away an image within the limit. */
  lemma TooLargeIffRawAboveLimit(n: nat)
    ensures TooLarge(Base64.EncodedLength(n)) <==> n > MAX_IMAGE_BYTES
  {
  }

  /** `image.content_type or "image/jpeg"`: a missing or empty content type defaults to JPEG. */
  function ContentType(declared: Option<string>): (ct: string)
    ensures ct != ""
    ensures declared.Some? && declared.value != "" ==> ct == declared.value
    ensures declared.None? || declared.value == "" ==> ct == DEFAULT_CONTENT_TYPE
  {
    if declared.Some? && declared.value != "" then declared.value else DEFAULT_CONTENT_TYPE
  }

  /** The data URI `data:<content type>;base64,<payload>`. */
  function DataUri(contentType: string, b64: string): (uri: string)
    ensures |uri| == |contentType| + |b64| + 13
    ensures uri[..5] == "data:" && uri[5..5 + |contentType|] == contentType
    ensures uri[5 + |contentType|..|uri| - |b64|] == ";base64,"
    ensures uri[|uri| - |b64|..] == b64
  {
    "data:" + contentType + ";base64," + b64
  }

  /** The text after the last comma of a URI, or the whole URI when it has none. */
  function Payload(uri: string): (p: string)
    decreases |uri|
  {
    if uri == [] then []
    else if uri[|uri| - 1] == ',' then []
    else Payload(uri[..|uri| - 1]) + [uri[|uri| - 1]]
  }

  /** The payload of a data URI built from comma-free text is that text: the Base64 image can
      be recovered from the stored `image_data`. */
  lemma {:induction false} PayloadOfDataUri(contentType: string, b64: string)
    requires ',' !in b64
    ensures Payload(DataUri(contentType, b64)) == b64
    decreases |b64|
  {
    var uri := DataUri(contentType, b64);
    if b64 == [] {
      assert uri[|uri| - 1] == ',';
    } else {
      var shorter := b64[..|b64| - 1];
      assert uri[..|uri| - 1] == DataUri(contentType, shorter);
      assert uri[|uri| - 1] == b64[|b64| - 1];
      PayloadOfDataUri(contentType, shorter);
      assert shorter + [b64[|b64| - 1]] == b64;
    }
  }

  /** The data URI of an accepted upload passes the size check again when its payload is read
      back: what is stored stays within the limit. */
  lemma AcceptedImageWithinLimit(image: Upload)
    requires |image.content| <= MAX_IMAGE_BYTES
    ensures !TooLarge(|Payload(DataUri(ContentType(image.contentType), Base64.Encode(image.content)))|)
  {
    var b64 := Base64.Encode(image.content);
    TooLargeIffRawAboveLimit(|image.content|);
    PayloadOfDataUri(ContentType(image.contentType), b64);
  }

  /** What both handlers do with an uploaded image: encode it, build the data URI, and reject it
      with 400 when the size estimate is over the limit. The upload is accepted exactly when it
      has at most 921600 bytes, and the accepted URI carries the encoding as its payload. */
  function EncodeImage(image: Upload): (r: Result<string, HttpError>)
    ensures r.Success? <==> |image.content| <= MAX_IMAGE_BYTES
    ensures r.Failure? ==> r.error == IMAGE_TOO_LARGE
    ensures r.Success? ==>
              var b64 := Base64.Encode(image.content);
              && r.value == DataUri(ContentType(image.contentType), b64)
              && Payload(r.value) == b64
              && !TooLarge(|Payload(r.value)|)
  {
    var b64 := Base64.Encode(image.content);
    var uri := DataUri(ContentType(image.contentType), b64);
    TooLargeIffRawAboveLimit(|image.content|);
    if TooLarge(|b64|) then
      Failure(IMAGE_TOO_LARGE)
    else
      PayloadOfDataUri(ContentType(image.contentType), b64);
      Success(uri)
  }
}
