// The course detail page: the embedded video link, the difficulty badge colour and the
// enrolment button.

module CourseDetailPage {
  import opened Wrappers
  import opened Text
  import opened Interactions
  import opened InteractionTracker
  import YouTube

  /** `url.split('v=')[1]?.split('&')[0] || url.split('/').pop()`: the `v` query value up to
      the next `&`, or else the last path segment. */
  function VideoId(url: string): (id: string)
    ensures !Contains(url, "v=") ==> id == Last(Split(url, "/"))
  {
    var parts := Split(url, "v=");
    var fromQuery := if |parts| >= 2 then Split(parts[1], "&")[0] else "";
    if fromQuery != "" then fromQuery else Last(Split(url, "/"))
  }

  /** `getYouTubeEmbedUrl`: the embed link for the video a course link names. */
  function EmbedUrl(url: string): (r: string)
    ensures |r| >= |YouTube.EmbedPrefix| && r[..|YouTube.EmbedPrefix|] == YouTube.EmbedPrefix
  {
    YouTube.EmbedUrl(VideoId(url))
  }

  /** The characters of a YouTube video id. */
  predicate IdChar(c: char) {
    'a' <= c <= 'z' || 'A' <= c <= 'Z' || '0' <= c <= '9' || c == '-' || c == '_'
  }

  predicate IsVideoId(id: string) {
    id != "" && forall i :: 0 <= i < |id| ==> IdChar(id[i])
  }

  /** `t` first occurs at `k` when no earlier character starts it. */
  lemma FirstOccurrence(s: string, t: string, k: nat)
    requires t != "" && OccursAt(s, t, k)
    requires forall i :: 0 <= i < k ==> s[i] != t[0]
    ensures IndexOf(s, t) == Some(k)
  {
    var r := IndexOf(s, t);
    assert r.Some?;
    assert r.value <= k;
    assert s[r.value..r.value + |t|][0] == t[0];
  }

  /** A string none of whose characters is `c` does not contain `[c]`. */
  lemma NoChar(s: string, c: char)
    requires forall i :: 0 <= i < |s| ==> s[i] != c
    ensures !Contains(s, [c])
  {
    forall j: nat | j + 1 <= |s| ensures !OccursAt(s, [c], j) {
      assert s[j..j + 1][0] == s[j];
    }
  }

  /** A string without an '=' does not contain "v=". */
  lemma NoQueryKey(s: string)
    requires forall i :: 0 <= i < |s| ==> s[i] != '='
    ensures !Contains(s, "v=")
  {
    forall j: nat | j + 2 <= |s| ensures !OccursAt(s, "v=", j) {
      assert s[j..j + 2][1] == s[j + 1];
    }
  }

  /** A video id holds neither "&", nor "/", nor "v=". */
  lemma VideoIdHasNoDelimiters(id: string)
    requires IsVideoId(id)
    ensures !Contains(id, "&") && !Contains(id, "/") && !Contains(id, "v=")
  {
    NoChar(id, '&');
    NoChar(id, '/');
    NoQueryKey(id);
  }

  /** The id is recovered from the watch link built for it. */
  lemma WatchLinkRoundTrip(id: string)
    requires IsVideoId(id)
    ensures VideoId(YouTube.WatchUrl(id)) == id
  {
    var url := YouTube.WatchUrl(id);
    var head := "https://www.youtube.com/watch?";
    assert url == head + "v=" + id;
    assert url[30..32] == "v=";
    assert forall i :: 0 <= i < 30 ==> url[i] == head[i];
    assert forall i :: 0 <= i < 30 ==> head[i] != 'v';
    FirstOccurrence(url, "v=", 30);
    assert url[32..] == id;
    VideoIdHasNoDelimiters(id);
    SplitPieces(url, "v=");
    SplitPieces(id, "&");
  }

  /** The id is recovered from a link whose last path segment is the id and that has no 'v'
      before it, such as a short link or an embed link. */
  lemma PathLinkRoundTrip(prefix: string, id: string)
    requires prefix != "" && prefix[|prefix| - 1] == '/'
    requires forall i :: 0 <= i < |prefix| ==> prefix[i] != 'v'
    requires IsVideoId(id)
    ensures VideoId(prefix + id) == id
  {
    var url := prefix + id;
    assert forall i :: |prefix| <= i < |url| ==> url[i] == id[i - |prefix|];
    forall j: nat | j + 2 <= |url| ensures !OccursAt(url, "v=", j) {
      assert url[j..j + 2][0] == url[j] && url[j..j + 2][1] == url[j + 1];
    }
    assert OccursAt(url, "/", |prefix| - 1) by {
      assert url[|prefix| - 1..|prefix|] == [url[|prefix| - 1]];
    }
    var p := Last(Split(url, "/"));
    LastPieceIsSuffix(url, "/");
    LastPieceFollowsSeparator(url, "/");
    forall j | |url| - |p| <= j < |url| ensures url[j] != '/' {
      var k := j - (|url| - |p|);
      assert p[k] == url[j];
      assert !OccursAt(p, "/", k);
      assert p[k..k + 1] == [p[k]];
    }
    assert url[|url| - |p| - 1..|url| - |p|][0] == url[|url| - |p| - 1];
    assert url[|url| - |p| - 1] == '/';
    assert |p| == |id|;
    assert p == url[|prefix|..];
  }

  /** Links to the embed player are left as they are. */
  lemma EmbedLinkIsFixed(id: string)
    requires IsVideoId(id)
    ensures EmbedUrl(YouTube.EmbedUrl(id)) == YouTube.EmbedUrl(id)
  {
    assert forall i :: 0 <= i < |YouTube.EmbedPrefix| ==> YouTube.EmbedPrefix[i] != 'v';
    PathLinkRoundTrip(YouTube.EmbedPrefix, id);
  }

  /** `getDifficultyColor`. */
  function DifficultyColor(difficulty: string): (color: string)
    ensures color == "bg-gray-100 text-gray-800" <==>
      difficulty != "Beginner" && difficulty != "Intermediate" && difficulty != "Advanced"
  {
    match difficulty
    case "Beginner" => "bg-green-100 text-green-800"
    case "Intermediate" => "bg-yellow-100 text-yellow-800"
    case "Advanced" => "bg-red-100 text-red-800"
    case _ => "bg-gray-100 text-gray-800"
  }

  /** The three levels get three different colours. */
  lemma DifficultyColorsDiffer(a: string, b: string)
    requires a in ["Beginner", "Intermediate", "Advanced"] && b in ["Beginner", "Intermediate", "Advanced"]
    ensures DifficultyColor(a) == DifficultyColor(b) <==> a == b
  {
  }

  datatype Course = Course(courseId: string, category: string, title: string, difficulty: string)

  /** How the enrolment request ends: any HTTP answer, or a thrown network error. */
  datatype PostReply = Delivered | NetworkError

  /** What the page does: go to the login page, or show one of the two alerts. */
  datatype EnrollOutcome = NavigateToLogin | Enrolled | EnrollFailed

  /** What the page's `useInteractionTracker()` call yields: the object `{ track }`. */
  datatype HookResult = TrackObject

  /** Calling that object as if it were a function throws a TypeError. */
  function CallAsFunction(h: HookResult): (r: Outcome<string>)
    ensures r.Fail?
  {
    Fail("trackInteraction is not a function")
  }

  /** `handleEnroll` as the page has it: with a token, the call to the hook's result throws
      before the request is sent, so the failure alert is shown. */
  function EnrollAsWritten(token: Option<string>, post: PostReply): (r: EnrollOutcome)
    ensures !Present(token) <==> r == NavigateToLogin
    ensures r != Enrolled
  {
    if !Present(token) then NavigateToLogin
    else match CallAsFunction(TrackObject)
      case Fail(_) => EnrollFailed
      case Pass => if post.Delivered? then Enrolled else EnrollFailed
  }

  /** `handleEnroll` as intended: the user is enrolled once the request is answered, whatever
      the answer's status, since the page does not look at it. */
  function Enroll(token: Option<string>, post: PostReply): (r: EnrollOutcome)
    ensures !Present(token) <==> r == NavigateToLogin
    ensures Present(token) ==> (r == Enrolled <==> post.Delivered?)
  {
    if !Present(token) then NavigateToLogin
    else if post.Delivered? then Enrolled else EnrollFailed
  }

  /** A signed-in user whose request is answered is never enrolled by the page as written. */
  lemma EnrollAsWrittenNeverEnrolls()
    ensures EnrollAsWritten(Some("token"), Delivered) == EnrollFailed
    ensures Enroll(Some("token"), Delivered) == Enrolled
  {
  }

  /** The details the enrolment record carries. */
  function EnrollDetails(course: Course): Details {
    NoDetails.(topic := Some(course.category),
      metadata := map["courseId" := Json.Str(course.courseId), "title" := Json.Str(course.title)])
  }

  /** `handleEnroll` with the tracker's `track`: without a token nothing is recorded and the
      login page is shown; with one, the enrolment is recorded before the request is sent. */
  method HandleEnroll(tracker: PageTracker, token: Option<string>, course: Course, post: PostReply)
    returns (outcome: EnrollOutcome)
    modifies tracker
    ensures outcome == Enroll(token, post)
    ensures !Present(token) ==> tracker.emitted == old(tracker.emitted)
    ensures Present(token) ==> (tracker.emitted ==
      old(tracker.emitted) + [Tracked(TrackRecord(tracker.page, tracker.options, "course_enroll", EnrollDetails(course)))])
  {
    if !Present(token) {
      return NavigateToLogin;
    }
    tracker.Track("course_enroll", EnrollDetails(course));
    outcome := if post.Delivered? then Enrolled else EnrollFailed;
  }
}
