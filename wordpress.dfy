/**
 * The `WordPress` client of app.py: the REST base URL and the HTTP Basic
 * Authorization header built in `__init__`, and the two requests
 * `upload_image` and `create_post` send, with the replies they act on.
 */
module WordPress {
  import opened Wrappers
  import Base64
  import Utf8

  /** The attributes `__init__` sets and the rest of the program reads. */
  datatype Client = Client(siteUrl: string, apiUrl: string, authorization: string)

  const ApiPath: string := "/wp-json/wp/v2"
  const BasicPrefix: string := "Basic "

  /** The user-pass of section 2 of RFC 7617: user-id, a colon, the password. */
  function UserPass(username: string, password: string): string {
    username + ":" + password
  }

  /** `"Basic " + base64.b64encode(credentials.encode()).decode("utf-8")`. */
  function Authorization(username: string, password: string): (h: string)
    ensures |h| >= |BasicPrefix| && h[..|BasicPrefix|] == BasicPrefix
    ensures Base64.Decode(h[|BasicPrefix|..]) == Some(Utf8.Encode(UserPass(username, password)))
  {
    var token := Base64.Encode(Utf8.Encode(UserPass(username, password)));
    Base64.DecodeEncode(Utf8.Encode(UserPass(username, password)));
    assert (BasicPrefix + token)[|BasicPrefix|..] == token;
    BasicPrefix + token
  }

  /** The contract of `Authorization` leaves no choice: any header meeting it is that header. */
  lemma AuthorizationDetermined(username: string, password: string, h: string)
    requires |h| >= |BasicPrefix| && h[..|BasicPrefix|] == BasicPrefix
    requires Base64.Decode(h[|BasicPrefix|..]) == Some(Utf8.Encode(UserPass(username, password)))
    ensures h == Authorization(username, password)
  {
    var a := Authorization(username, password);
    Base64.EncodeDecode(h[|BasicPrefix|..]);
    Base64.EncodeDecode(a[|BasicPrefix|..]);
    assert h == h[..|BasicPrefix|] + h[|BasicPrefix|..];
    assert a == a[..|BasicPrefix|] + a[|BasicPrefix|..];
  }

  /** `WordPress.__init__`. */
  function NewClient(siteUrl: string, username: string, password: string): (w: Client)
    ensures w.siteUrl == siteUrl && w.apiUrl == siteUrl + "/wp-json/wp/v2"
    ensures w.authorization == Authorization(username, password)
    ensures ':' !in username ==> ParseBasic(w.authorization) == Some((username, password))
  {
    var w := Client(siteUrl, siteUrl + ApiPath, Authorization(username, password));
    if ':' in username then w
    else
      BasicRoundTrip(username, password);
      w
  }

  /** Splits a user-pass at its first colon, as a server reading RFC 7617 credentials does. */
  function SplitUserPass(s: string): (r: Option<(string, string)>)
    ensures r.Some? <==> ':' in s
  {
    if s == [] then None
    else if s[0] == ':' then Some(([], s[1..]))
    else
      match SplitUserPass(s[1..])
      case None => None
      case Some((user, pass)) => Some(([s[0]] + user, pass))
  }

  /** The receiving side of the header: the scheme, base64, UTF-8, then the first colon. */
  function ParseBasic(h: string): Option<(string, string)> {
    if |h| < |BasicPrefix| || h[..|BasicPrefix|] != BasicPrefix then None
    else
      match Base64.Decode(h[|BasicPrefix|..])
      case None => None
      case Some(octets) =>
        match Utf8.Decode(octets)
        case None => None
        case Some(s) => SplitUserPass(s)
  }

  lemma {:induction false} SplitUserPassJoin(username: string, password: string)
    requires ':' !in username
    ensures SplitUserPass(UserPass(username, password)) == Some((username, password))
  {
    var s := UserPass(username, password);
    if username != [] {
      assert s[1..] == UserPass(username[1..], password);
      SplitUserPassJoin(username[1..], password);
      assert [username[0]] + username[1..] == username;
    }
  }

  /**
   * The header carries exactly the configured credentials: a server splitting
   * the decoded user-pass at the first colon recovers both (RFC 7617 forbids a
   * colon in the user-id).
   */
  lemma BasicRoundTrip(username: string, password: string)
    requires ':' !in username
    ensures ParseBasic(Authorization(username, password)) == Some((username, password))
  {
    Utf8.DecodeEncode(UserPass(username, password));
    SplitUserPassJoin(username, password);
  }

  /** A JSON value where the source reads an `id`: Python's `isinstance(v, int)` also holds of `true` and `false`. */
  datatype JsonValue = JsonInt(i: int) | JsonBool(b: bool) | JsonOther

  predicate IsPythonInt(v: JsonValue) {
    v.JsonInt? || v.JsonBool?
  }

  /** What `upload_image` ends with: a failed download or upload (a failed status assert), or the media object with its `id` if present. */
  datatype MediaReply = MediaRejected | MediaCreated(id: Option<JsonValue>)

  /** What `create_post` ends with: a failed status assert, or the post object with its `id` if present. */
  datatype PostReply = PostRejected | PostCreated(id: Option<JsonValue>)

  /** The two requests against the REST API, with the form fields the source sends. */
  datatype RemoteCall =
    | UploadImage(endpoint: string, imageUrl: string, title: string, altText: string, caption: string, description: string)
    | CreatePost(endpoint: string, title: string, content: string, featuredMedia: JsonValue, status: string)

  /** `upload_image(image_url, title, description)`: alt text and caption repeat the title. */
  function UploadRequest(w: Client, imageUrl: string, title: string, description: string): RemoteCall {
    UploadImage(w.apiUrl + "/media", imageUrl, title, title, title, description)
  }

  /** `create_post(title, content, featured_media)` with its default status "draft". */
  function CreatePostRequest(w: Client, title: string, content: string, featuredMedia: JsonValue): RemoteCall {
    CreatePost(w.apiUrl + "/posts", title, content, featuredMedia, "draft")
  }
}
