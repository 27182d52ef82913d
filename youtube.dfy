// The recommended-videos section: the curated video catalogue, the selection of at most six
// videos for the recommended topics, and the links built from a video id.

module YouTube {
  import opened Wrappers
  import opened Lists
  import opened Interactions
  import Recommendations

  datatype Video = Video(id: string, title: string, channel: string, views: string, duration: string)

  /** Curated videos per topic name. */
  type Database = map<string, seq<Video>>

  /** At most this many videos are shown. */
  const MaxVideos := 6

  /** The catalogue the section draws from. */
  function VideoDatabase(): Database {
    map[
      "Web Development" := [
        Video("EerdGm-ehJQ", "HTML & CSS Full Course - Beginner to Pro", "SuperSimpleDev", "2.8M", "6:31:24"),
        Video("hdI2bqOjy3c", "JavaScript Crash Course For Beginners", "Traversy Media", "4.1M", "1:40:17"),
        Video("SqcY0GlETPk", "React Tutorial for Beginners", "Programming with Mosh", "5.6M", "1:18:39")],
      "Frontend" := [
        Video("EerdGm-ehJQ", "HTML & CSS Full Course - Beginner to Pro", "SuperSimpleDev", "2.8M", "6:31:24"),
        Video("UB1O30fR-EE", "HTML Crash Course For Absolute Beginners", "Traversy Media", "3.9M", "1:00:41")],
      "Backend" := [
        Video("fBNz5xF-Kx4", "Node.js Tutorial for Beginners", "Programming with Mosh", "3.2M", "1:06:28"),
        Video("ENrzD9HAZK4", "Node.js & Express From Scratch", "Traversy Media", "1.8M", "1:13:30")],
      "Python" := [
        Video("_uQrJ0TkZlc", "Python Tutorial - Python Full Course for Beginners", "Programming with Mosh", "23M", "6:14:07"),
        Video("kqtD5dpn9C8", "Python for Beginners - Learn Python in 1 Hour", "Programming with Mosh", "8.5M", "1:00:05"),
        Video("8DvywoWv6fI", "Python Tutorial for Beginners", "Telusko", "12M", "11:51:50")],
      "Programming" := [
        Video("_uQrJ0TkZlc", "Python Tutorial - Python Full Course for Beginners", "Programming with Mosh", "23M", "6:14:07"),
        Video("RBSGKlAvoiM", "Data Structures and Algorithms", "freeCodeCamp.org", "7.8M", "5:17:20")],
      "AI" := [
        Video("VyWAvY2CF9c", "AI For Everyone - Complete Course", "freeCodeCamp.org", "1.5M", "1:15:32"),
        Video("JMUxmLyrhSk", "Build 5 AI Projects with Python", "freeCodeCamp.org", "890K", "1:43:12"),
        Video("tPYj3fFJGjk", "ChatGPT Tutorial - A Crash Course", "freeCodeCamp.org", "1.2M", "1:26:54")],
      "Artificial Intelligence" := [
        Video("VyWAvY2CF9c", "AI For Everyone - Complete Course", "freeCodeCamp.org", "1.5M", "1:15:32"),
        Video("JMUxmLyrhSk", "Build 5 AI Projects with Python", "freeCodeCamp.org", "890K", "1:43:12")],
      "Machine Learning" := [
        Video("i_LwzRVP7bg", "Machine Learning for Everybody", "Kylie Ying", "1.9M", "3:50:17"),
        Video("7eh4d6sabA0", "PyTorch for Deep Learning & Machine Learning", "freeCodeCamp.org", "1.3M", "25:41:12"),
        Video("tZeLHU1Ne8w", "Scikit Learn Tutorial - Machine Learning", "codebasics", "670K", "1:43:23")],
      "Data Science" := [
        Video("ua-CiDNNj30", "Data Science Tutorial For Beginners", "Simplilearn", "2.1M", "4:28:32"),
        Video("r-uOLxNrNk8", "Data Analyst Bootcamp", "Alex The Analyst", "3.4M", "4:13:03"),
        Video("CmorAWRsCAw", "Pandas Full Course", "codebasics", "890K", "4:07:22")],
      "React" := [
        Video("SqcY0GlETPk", "React Tutorial for Beginners", "Programming with Mosh", "5.6M", "1:18:39"),
        Video("w7ejDZ8SWv8", "React JS Crash Course", "Traversy Media", "2.8M", "1:48:48"),
        Video("j942wKiXFu8", "React Project Tutorial - Build a Portfolio", "JavaScript Mastery", "1.4M", "2:31:17")],
      "JavaScript" := [
        Video("hdI2bqOjy3c", "JavaScript Crash Course For Beginners", "Traversy Media", "4.1M", "1:40:17"),
        Video("W6NZfCO5SIk", "JavaScript Tutorial for Beginners", "Programming with Mosh", "12M", "1:05:44"),
        Video("lI1ae4REbFM", "JavaScript ES6, ES7, ES8", "Traversy Media", "1.2M", "44:40")],
      "Mobile Development" := [
        Video("VnzJsG0WPHA", "React Native Tutorial for Beginners", "Programming with Mosh", "1.6M", "2:59:55"),
        Video("fgdpvwEWJ9M", "Flutter Course - Full Tutorial for Beginners", "freeCodeCamp.org", "2.3M", "5:16:27")],
      "Game Development" := [
        Video("whzomFgjT50", "Unity Tutorial for Complete Beginners", "Brackeys", "4.2M", "2:02:03"),
        Video("XtQMytORBmM", "Create a 2D Game with Unity", "Brackeys", "2.1M", "1:18:15")],
      "Cloud Computing" := [
        Video("SOTamWNgDKc", "AWS Certified Cloud Practitioner Training", "freeCodeCamp.org", "3.2M", "13:59:45"),
        Video("NKEFWyqJ5XA", "Azure Full Course - Learn Microsoft Azure", "Edureka", "1.8M", "4:12:56")],
      "AWS" := [
        Video("SOTamWNgDKc", "AWS Certified Cloud Practitioner Training", "freeCodeCamp.org", "3.2M", "13:59:45"),
        Video("ulprqHHWlng", "AWS Tutorial For Beginners", "Simplilearn", "2.4M", "5:38:27")],
      "Cybersecurity" := [
        Video("U_P23SqJaDc", "Ethical Hacking Full Course", "freeCodeCamp.org", "4.7M", "15:00:32"),
        Video("lpaEmS9yZSo", "CompTIA Security+ Full Course", "Professor Messer", "1.9M", "11:23:45")],
      "DevOps" := [
        Video("hQcFE0RD0cQ", "Docker Tutorial for Beginners", "Programming with Mosh", "2.7M", "1:11:18"),
        Video("X48VuDVv0do", "Kubernetes Tutorial for Beginners", "TechWorld with Nana", "3.8M", "3:53:18")],
      "Database" := [
        Video("HXV3zeQKqGY", "SQL Tutorial - Full Database Course", "freeCodeCamp.org", "9.8M", "4:20:07"),
        Video("qw--VYLpxG4", "PostgreSQL Tutorial Full Course", "Amigoscode", "1.2M", "4:18:21")],
      "SQL" := [
        Video("HXV3zeQKqGY", "SQL Tutorial - Full Database Course", "freeCodeCamp.org", "9.8M", "4:20:07"),
        Video("7S_tz1z_5bA", "MySQL Tutorial for Beginners", "Programming with Mosh", "8.3M", "3:10:14")],
      "UI/UX" := [
        Video("c9Wg6Cb_YlU", "UI Design for Beginners", "DesignCourse", "1.4M", "1:45:32"),
        Video("_P7wHN_kOv4", "Figma Tutorial - UI Design", "DesignCourse", "980K", "1:23:12")],
      "Interview Prep" := [
        Video("fvZdb_uTdqo", "How to: Work at Google — Example Coding/Engineering Interview", "Life at Google", "7.8M", "27:26"),
        Video("RBSGKlAvoiM", "Data Structures and Algorithms", "freeCodeCamp.org", "7.8M", "5:17:20")],
      "Career Paths" := [
        Video("2oLhxbhMzCA", "How I Would Learn To Code (If I Could Start Over)", "ThePrimeTime", "1.2M", "14:32"),
        Video("oC483DTjRXU", "Software Engineer Career Path", "freeCodeCamp.org", "890K", "53:18")]
    ]
  }

  /** The popular videos added when the topics yield fewer than six. */
  const Fallback: seq<Video> := [
    Video("_uQrJ0TkZlc", "Python Tutorial - Python Full Course for Beginners", "Programming with Mosh", "23M", "6:14:07"),
    Video("hdI2bqOjy3c", "JavaScript Crash Course For Beginners", "Traversy Media", "4.1M", "1:40:17"),
    Video("SqcY0GlETPk", "React Tutorial for Beginners", "Programming with Mosh", "5.6M", "1:18:39")
  ]

  /** The ids already used, the `usedIds` set. */
  function Ids(vs: seq<Video>): (r: set<string>)
    ensures forall v :: v in vs ==> v.id in r
    ensures forall x :: x in r ==> exists v :: v in vs && v.id == x
  {
    set v | v in vs :: v.id
  }

  /** No id occurs twice. */
  predicate DistinctIds(vs: seq<Video>) {
    forall i, j :: 0 <= i < j < |vs| ==> vs[i].id != vs[j].id
  }

  lemma IdsAppend(vs: seq<Video>, v: Video)
    ensures Ids(vs + [v]) == Ids(vs) + {v.id}
  {
    assert v in vs + [v];
    forall x | x in Ids(vs + [v]) ensures x in Ids(vs) + {v.id} {
      var w :| w in vs + [v] && w.id == x;
      if w != v { assert w in vs; }
    }
  }

  /** `videoDatabase[topic] || []`. */
  function VideosFor(db: Database, topic: string): (r: seq<Video>)
    ensures topic !in db ==> r == []
  {
    if topic in db then db[topic] else []
  }

  /** Every video of every topic, topic by topic, in order. */
  function Candidates(db: Database, topics: seq<string>): (r: seq<Video>)
    ensures forall v :: v in r ==> exists t :: t in topics && v in VideosFor(db, t)
    decreases |topics|
  {
    if topics == [] then []
    else
      var before := Candidates(db, topics[..|topics| - 1]);
      assert forall t :: t in topics[..|topics| - 1] ==> t in topics;
      before + VideosFor(db, topics[|topics| - 1])
  }

  /** Walks `candidates` in order and appends each video whose id is not yet chosen while
      fewer than six are chosen. */
  function Pick(chosen: seq<Video>, candidates: seq<Video>): (r: seq<Video>)
    ensures |chosen| <= |r| && r[..|chosen|] == chosen
    ensures |r| <= if |chosen| < MaxVideos then MaxVideos else |chosen|
    ensures forall v :: v in r[|chosen|..] ==> v in candidates
    decreases |candidates|
  {
    if candidates == [] then chosen
    else
      var before := Pick(chosen, candidates[..|candidates| - 1]);
      var v := candidates[|candidates| - 1];
      assert forall w :: w in before[|chosen|..] ==> w in candidates;
      if v.id !in Ids(before) && |before| < MaxVideos then
        assert (before + [v])[..|chosen|] == before[..|chosen|];
        assert (before + [v])[|chosen|..] == before[|chosen|..] + [v];
        before + [v]
      else before
  }

  /** What the section shows for `topics`: the topic videos first, then the fallback videos
      when fewer than six were found. */
  function Select(db: Database, topics: seq<string>): seq<Video> {
    var fromTopics := Pick([], Candidates(db, topics));
    if |fromTopics| < MaxVideos then Pick(fromTopics, Fallback) else fromTopics
  }

  lemma {:induction false} PickKeepsDistinct(chosen: seq<Video>, candidates: seq<Video>)
    requires DistinctIds(chosen)
    ensures DistinctIds(Pick(chosen, candidates))
    decreases |candidates|
  {
    if candidates != [] {
      var before := Pick(chosen, candidates[..|candidates| - 1]);
      PickKeepsDistinct(chosen, candidates[..|candidates| - 1]);
      var v := candidates[|candidates| - 1];
      if v.id !in Ids(before) && |before| < MaxVideos {
        var r := before + [v];
        forall i, j | 0 <= i < j < |r| ensures r[i].id != r[j].id {
          if j == |before| {
            assert r[i] in before;
          }
        }
      }
    }
  }

  /** Nothing is skipped unless six videos are already chosen: a selection shorter than six
      holds the id of every candidate. */
  lemma {:induction false} PickIsMaximal(chosen: seq<Video>, candidates: seq<Video>)
    requires |Pick(chosen, candidates)| < MaxVideos
    ensures forall v :: v in candidates ==> v.id in Ids(Pick(chosen, candidates))
    decreases |candidates|
  {
    if candidates != [] {
      var prefix := candidates[..|candidates| - 1];
      var before := Pick(chosen, prefix);
      var v := candidates[|candidates| - 1];
      var r := Pick(chosen, candidates);
      assert |before| <= |r|;
      PickIsMaximal(chosen, prefix);
      assert Ids(before) <= Ids(r) by {
        if r != before { IdsAppend(before, v); }
      }
      assert v.id in Ids(r) by {
        if r != before { IdsAppend(before, v); }
      }
      assert candidates == prefix + [v];
    }
  }

  lemma {:induction false} PickAppend(chosen: seq<Video>, a: seq<Video>, b: seq<Video>)
    ensures Pick(chosen, a + b) == Pick(Pick(chosen, a), b)
    decreases |b|
  {
    if b == [] {
      assert a + b == a;
    } else {
      assert (a + b)[..|a + b| - 1] == a + b[..|b| - 1];
      PickAppend(chosen, a, b[..|b| - 1]);
    }
  }

  lemma {:induction false} IdsBoundLength(vs: seq<Video>)
    ensures |Ids(vs)| <= |vs|
    decreases |vs|
  {
    if vs != [] {
      var init := vs[..|vs| - 1];
      assert vs == init + [vs[|vs| - 1]];
      IdsAppend(init, vs[|vs| - 1]);
      IdsBoundLength(init);
    }
  }

  /** The three fallback videos have three different ids. */
  lemma FallbackDistinct()
    ensures DistinctIds(Fallback)
    ensures |{Fallback[0].id, Fallback[1].id, Fallback[2].id}| == 3
  {
    var a, b, c := Fallback[0].id, Fallback[1].id, Fallback[2].id;
    assert a[0] == '_' && b[0] == 'h' && c[0] == 'S';
  }

  lemma SubsetSize(a: set<string>, b: set<string>)
    requires a <= b
    ensures |a| <= |b|
  {
    assert b == a + (b - a);
  }

  /** Candidates that are all new and fit within six are all taken, in order. */
  lemma {:induction false} PickTakesAllNew(chosen: seq<Video>, candidates: seq<Video>)
    requires DistinctIds(chosen + candidates) && |chosen + candidates| <= MaxVideos
    ensures Pick(chosen, candidates) == chosen + candidates
    decreases |candidates|
  {
    if candidates != [] {
      var prefix := candidates[..|candidates| - 1];
      var v := candidates[|candidates| - 1];
      assert chosen + candidates == (chosen + prefix) + [v];
      var all := chosen + candidates;
      assert DistinctIds(chosen + prefix) by {
        forall i, j | 0 <= i < j < |chosen + prefix| ensures (chosen + prefix)[i].id != (chosen + prefix)[j].id {
          assert (chosen + prefix)[i] == all[i] && (chosen + prefix)[j] == all[j];
        }
      }
      PickTakesAllNew(chosen, prefix);
      assert forall k :: 0 <= k < |chosen + prefix| ==> (chosen + prefix)[k].id != v.id by {
        forall k | 0 <= k < |chosen + prefix| ensures (chosen + prefix)[k].id != v.id {
          assert (chosen + prefix)[k] == all[k] && v == all[|all| - 1];
        }
      }
      assert forall w :: w in chosen + prefix ==> w.id != v.id;
    }
  }

  /** The shown videos never repeat an id. */
  lemma SelectDistinct(db: Database, topics: seq<string>)
    ensures DistinctIds(Select(db, topics))
  {
    var fromTopics := Pick([], Candidates(db, topics));
    PickKeepsDistinct([], Candidates(db, topics));
    if |fromTopics| < MaxVideos {
      PickKeepsDistinct(fromTopics, Fallback);
    }
  }

  /** The shown videos come from the recommended topics or from the fallback list. */
  lemma SelectDrawsFromCatalogue(db: Database, topics: seq<string>)
    ensures forall v :: v in Select(db, topics) ==> v in Candidates(db, topics) || v in Fallback
  {
    var candidates := Candidates(db, topics);
    var fromTopics := Pick([], candidates);
    assert fromTopics[0..] == fromTopics;
    if |fromTopics| < MaxVideos {
      var r := Pick(fromTopics, Fallback);
      forall v | v in r ensures v in candidates || v in Fallback {
        var i :| 0 <= i < |r| && r[i] == v;
        if i < |fromTopics| {
          assert r[..|fromTopics|][i] == v;
        } else {
          assert r[|fromTopics|..][i - |fromTopics|] == v;
        }
      }
    }
  }

  /** Between three and six videos are shown, whatever the topics. */
  lemma SelectCount(db: Database, topics: seq<string>)
    ensures 3 <= |Select(db, topics)| <= MaxVideos
  {
    var fromTopics := Pick([], Candidates(db, topics));
    var r := Select(db, topics);
    if |fromTopics| < MaxVideos && |r| < MaxVideos {
      PickIsMaximal(fromTopics, Fallback);
      SelectDistinct(db, topics);
      FallbackDistinct();
      var three := {Fallback[0].id, Fallback[1].id, Fallback[2].id};
      assert Fallback[0] in Fallback && Fallback[1] in Fallback && Fallback[2] in Fallback;
      assert three <= Ids(r);
      IdsBoundLength(r);
      SubsetSize(three, Ids(r));
    }
  }

  /** A topic video is never displaced by a fallback video: the topic videos come first. */
  lemma TopicVideosFirst(db: Database, topics: seq<string>)
    ensures var fromTopics := Pick([], Candidates(db, topics));
      |fromTopics| <= |Select(db, topics)| && Select(db, topics)[..|fromTopics|] == fromTopics
  {
  }

  /** With no topics the section shows exactly the three fallback videos. */
  lemma NoTopicsShowsFallback(db: Database)
    ensures Select(db, []) == Fallback
  {
    FallbackDistinct();
    assert [] + Fallback == Fallback;
    PickTakesAllNew([], Fallback);
  }

  /** One `forEach` pass: each video whose id is not yet used is appended while fewer than six
      are selected. */
  method AddUnused(selected: seq<Video>, usedIds: set<string>, videos: seq<Video>)
    returns (selected': seq<Video>, usedIds': set<string>)
    requires usedIds == Ids(selected)
    ensures selected' == Pick(selected, videos) && usedIds' == Ids(selected')
  {
    selected', usedIds' := selected, usedIds;
    for j := 0 to |videos|
      invariant selected' == Pick(selected, videos[..j])
      invariant usedIds' == Ids(selected')
    {
      var video := videos[j];
      assert videos[..j + 1][..j] == videos[..j];
      if video.id !in usedIds' && |selected'| < MaxVideos {
        IdsAppend(selected', video);
        selected' := selected' + [video];
        usedIds' := usedIds' + {video.id};
      }
    }
    assert videos[..|videos|] == videos;
  }

  /** `getYouTubeVideos`: a pass over the videos of each topic, a pass over the fallback videos
      when fewer than six were found, and the final `slice(0, 6)`. */
  method GetYouTubeVideos(db: Database, topics: seq<string>) returns (videos: seq<Video>)
    ensures videos == Select(db, topics)
  {
    var selected: seq<Video> := [];
    var usedIds: set<string> := {};
    for i := 0 to |topics|
      invariant selected == Pick([], Candidates(db, topics[..i]))
      invariant usedIds == Ids(selected)
    {
      var topicVideos := VideosFor(db, topics[i]);
      PickAppend([], Candidates(db, topics[..i]), topicVideos);
      assert topics[..i + 1][..i] == topics[..i];
      selected, usedIds := AddUnused(selected, usedIds, topicVideos);
    }
    assert topics[..|topics|] == topics;
    if |selected| < MaxVideos {
      selected, usedIds := AddUnused(selected, usedIds, Fallback);
    }
    videos := Take(selected, MaxVideos);
  }

  /** What the section renders. */
  datatype View = Hidden | Shown(videos: seq<Video>)

  /** Mounting the section over the catalogue `db` (the component's own is `VideoDatabase()`):
      no token hides it; otherwise the personalised topics are fetched and between three and six
      distinct videos are shown for them, so the section is never empty for a signed-in user. */
  method LoadRecommendedVideos(db: Database, token: Option<string>, response: Recommendations.InteractionsResponse)
    returns (topics: seq<string>, view: View)
    ensures !Present(token) ==> view == Hidden
    ensures Present(token) ==> 1 <= |topics| <= Recommendations.TopCount
    ensures Present(token) ==> view == Shown(Select(db, topics))
    ensures view.Shown? ==> 3 <= |view.videos| <= MaxVideos && DistinctIds(view.videos)
  {
    if !Present(token) {
      return [], Hidden;
    }
    topics := Recommendations.GetPersonalizedVideoTopics(token, response);
    var videos := GetYouTubeVideos(db, topics);
    SelectCount(db, topics);
    SelectDistinct(db, topics);
    if |videos| == 0 {
      assert false;
      view := Hidden;
    } else {
      view := Shown(videos);
    }
  }

  const WatchPrefix := "https://www.youtube.com/watch?v="
  const EmbedPrefix := "https://www.youtube.com/embed/"
  const ThumbnailPrefix := "https://img.youtube.com/vi/"
  const ThumbnailSuffix := "/maxresdefault.jpg"

  /** The link each card opens. */
  function WatchUrl(id: string): (r: string)
    ensures |r| == |WatchPrefix| + |id| && r[..|WatchPrefix|] == WatchPrefix && r[|WatchPrefix|..] == id
  {
    WatchPrefix + id
  }

  /** `getYouTubeEmbedUrl`. */
  function EmbedUrl(id: string): (r: string)
    ensures |r| == |EmbedPrefix| + |id| && r[..|EmbedPrefix|] == EmbedPrefix && r[|EmbedPrefix|..] == id
  {
    EmbedPrefix + id
  }

  /** `getThumbnailUrl`. */
  function ThumbnailUrl(id: string): (r: string)
    ensures |r| == |ThumbnailPrefix| + |id| + |ThumbnailSuffix|
    ensures r[..|ThumbnailPrefix|] == ThumbnailPrefix && r[|r| - |ThumbnailSuffix|..] == ThumbnailSuffix
    ensures r[|ThumbnailPrefix|..|r| - |ThumbnailSuffix|] == id
  {
    ThumbnailPrefix + id + ThumbnailSuffix
  }

  /** Recovers the id from a thumbnail link. */
  function ThumbnailId(url: string): Option<string> {
    if |url| >= |ThumbnailPrefix| + |ThumbnailSuffix| && url[..|ThumbnailPrefix|] == ThumbnailPrefix
       && url[|url| - |ThumbnailSuffix|..] == ThumbnailSuffix
    then Some(url[|ThumbnailPrefix|..|url| - |ThumbnailSuffix|])
    else None
  }

  /** Distinct videos get distinct thumbnails: the id is recovered from the link. */
  lemma ThumbnailRoundTrip(id: string)
    ensures ThumbnailId(ThumbnailUrl(id)) == Some(id)
  {
  }

  lemma ThumbnailUrlInjective(a: string, b: string)
    ensures ThumbnailUrl(a) == ThumbnailUrl(b) ==> a == b
  {
    ThumbnailRoundTrip(a);
    ThumbnailRoundTrip(b);
  }
}
