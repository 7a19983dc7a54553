/** The `/recipes` routes: recipe generation from the language model's
    text, the YouTube search and its item mapping, saving a recipe with
    its videos and listing the current user's saved recipes. The model's
    text, the YouTube answer and the database's failures are inputs. */
module BackendRecipes {
  import opened Wrappers
  import opened Json
  import Text
  import Models
  import Fastapi

  // ---------------------------------------------------------------------
  // Code fences

  /** `re.sub(r'^```json|```$', '', s, flags=re.MULTILINE)`, scanning from
      a position that is (`lineStart`) or is not at the start of a line.
      Both anchors are judged on the original text: a "```json" counts
      only at the start of a line, a "```" only right before a newline or
      at the end; the first alternative is tried first. */
  function Unfence(s: string, lineStart: bool): (r: string)
    ensures |r| <= |s|
    decreases |s|
  {
    if |s| == 0 then ""
    else if lineStart && |s| >= 7 && s[..7] == "```json" then Unfence(s[7..], false)
    else if |s| >= 3 && s[..3] == "```" && (|s| == 3 || s[3] == '\n') then Unfence(s[3..], false)
    else [s[0]] + Unfence(s[1..], s[0] == '\n')
  }

  /** The response text cleaned before parsing: fences removed, then
      `strip()`. */
  function StripFences(s: string): (r: string)
    ensures '`' !in s ==> r == Text.Trim(s, Text.IsPySpace)
  {
    var u := Unfence(s, true);
    assert '`' !in s ==> u == s by {
      if '`' !in s {
        UnfenceTickFree(s, "", true);
        assert s + "" == s;
      }
    }
    Text.Trim(u, Text.IsPySpace)
  }

  /** Whether the last character copied was a newline. */
  function EndsLine(t: string, lineStart: bool): bool {
    if |t| > 0 then t[|t| - 1] == '\n' else lineStart
  }

  /** Text without backticks passes through the substitution unchanged. */
  lemma {:induction false} UnfenceTickFree(t: string, u: string, lineStart: bool)
    requires '`' !in t
    ensures Unfence(t + u, lineStart) == t + Unfence(u, EndsLine(t, lineStart))
    decreases |t|
  {
    if |t| == 0 {
      assert t + u == u;
    } else {
      var s := t + u;
      assert s[0] == t[0] && t[0] in t;
      assert |s| >= 3 ==> s[..3][0] == s[0];
      assert |s| >= 7 ==> s[..7][0] == s[0];
      assert s[1..] == t[1..] + u;
      UnfenceTickFree(t[1..], u, t[0] == '\n');
      assert forall c :: c in t[1..] ==> c in t;
      assert |t| > 1 ==> t[1..][|t[1..]| - 1] == t[|t| - 1];
    }
  }

  /** Text trimmed already and free of backticks. */
  predicate Bare(x: string) {
    && '`' !in x
    && (|x| == 0 || (!Text.IsPySpace(x[0]) && !Text.IsPySpace(x[|x| - 1])))
  }

  /** A reply fenced as a JSON code block comes out as its content. */
  lemma FencedJson(x: string)
    requires Bare(x)
    ensures StripFences("```json\n" + x + "\n```") == x
  {
    var s := "```json\n" + x + "\n```";
    var t := "\n" + x + "\n";
    assert s[..7] == "```json";
    assert s[7..] == t + "```";
    assert '`' !in t;
    assert Unfence(s, true) == Unfence(s[7..], false);
    UnfenceTickFree(t, "```", false);
    assert EndsLine(t, false);
    assert "```"[..3] == "```";
    assert Unfence("```", true) == "";
    assert Unfence(s, true) == t + "";
    assert t + "" == t == ['\n'] + x + ['\n'];
    Text.TrimWrapped(x, '\n', Text.IsPySpace);
  }

  /** An untagged fence is removed too: its opening "```" ends a line. */
  lemma PlainFence(x: string)
    requires Bare(x)
    ensures StripFences("```\n" + x + "\n```") == x
  {
    var s := "```\n" + x + "\n```";
    var t := "\n" + x + "\n";
    assert s[..7] != "```json" by { assert s[3] == '\n' && "```json"[3] == 'j'; }
    assert s[..3] == "```" && s[3] == '\n';
    assert s[3..] == t + "```";
    assert '`' !in t;
    assert Unfence(s, true) == Unfence(s[3..], false);
    UnfenceTickFree(t, "```", false);
    assert EndsLine(t, false);
    assert "```"[..3] == "```";
    assert Unfence("```", true) == "";
    assert Unfence(s, true) == t + "";
    assert t + "" == t == ['\n'] + x + ['\n'];
    Text.TrimWrapped(x, '\n', Text.IsPySpace);
  }

  /** A reply without backticks is only stripped of surrounding space. */
  lemma NoFence(x: string)
    requires '`' !in x
    ensures StripFences(x) == Text.Trim(x, Text.IsPySpace)
  {
    UnfenceTickFree(x, "", true);
    assert x + "" == x;
  }

  // ---------------------------------------------------------------------
  // Generation

  const GeneratePrefix := "Error generating recipes: "
  const ParsePrefix := "Failed to parse Gemini response: "

  /** The 500 a parse failure becomes once the outer handler rewraps the
      inner `HTTPException`. */
  function ParseFailureDetail(m: string): string {
    GeneratePrefix + "500: " + ParsePrefix + m
  }

  lemma ParseFailureRewrapped(m: string)
    ensures Fastapi.Rewrap(GeneratePrefix, Fastapi.Http(Fastapi.HttpError(500, ParsePrefix + m)))
         == Fastapi.HttpError(500, ParseFailureDetail(m))
  {
    Fastapi.StatusText(500);
    assert Text.IntToString(500) == "500";
    var d := Fastapi.Describe(Fastapi.Http(Fastapi.HttpError(500, ParsePrefix + m)));
    assert d == "500: " + (ParsePrefix + m);
    assert GeneratePrefix + d == GeneratePrefix + "500: " + ParsePrefix + m;
  }

  /** `generate_recipes`: `generated` is the model's text or the error the
      SDK raised, `parse` is `json.loads`. The parser sees the cleaned
      text, and every failure ends as a 500 under the generation prefix. */
  function GenerateRecipes(user: Result<Models.User, Fastapi.HttpError>, generated: Result<string, string>,
                           parse: string -> Result<Json, string>)
    : (r: Result<Json, Fastapi.HttpError>)
    ensures user.Failure? ==> r == Failure(user.error)
    ensures user.Success? && generated.Failure? ==>
      r == Failure(Fastapi.HttpError(500, GeneratePrefix + generated.error))
    ensures user.Success? && generated.Success? && parse(StripFences(generated.value)).Failure? ==>
      r == Failure(Fastapi.HttpError(500, ParseFailureDetail(parse(StripFences(generated.value)).error)))
    ensures r.Success? <==> user.Success? && generated.Success? && parse(StripFences(generated.value)).Success?
    ensures r.Success? ==> r.value == parse(StripFences(generated.value)).value
  {
    match user
    case Failure(e) => Failure(e)
    case Success(_) =>
      match generated
      case Failure(m) => Failure(Fastapi.Rewrap(GeneratePrefix, Fastapi.Other(m)))
      case Success(text) =>
        match parse(StripFences(text))
        case Success(j) => Success(j)
        case Failure(m) =>
          ParseFailureRewrapped(m);
          Failure(Fastapi.Rewrap(GeneratePrefix, Fastapi.Http(Fastapi.HttpError(500, ParsePrefix + m))))
  }

  // ---------------------------------------------------------------------
  // YouTube search

  /** A video as the search returns it and as a saved recipe carries it. */
  datatype Video = Video(videoId: Json, title: Json, description: Json, thumbnailUrl: Json,
                         channelTitle: Json, publishedAt: Json)

  /** `v[key]` in Python on a decoded JSON value: a missing key raises
      `KeyError` (whose text is the quoted key), other values raise
      `TypeError`. */
  function Index(v: Json, key: string): (r: Result<Json, string>)
    ensures r.Success? <==> v.Obj? && Lookup(v.members, key).Some?
    ensures r.Success? ==> r.value == Lookup(v.members, key).value
    ensures v.Obj? && r.Failure? ==> r.error == "'" + key + "'"
  {
    match v
    case Obj(ms) =>
      (match Lookup(ms, key)
       case Some(x) => Success(x)
       case None => Failure("'" + key + "'"))
    case Arr(_) => Failure("list indices must be integers or slices, not str")
    case Str(_) => Failure("string indices must be integers")
    case Null => Failure("'NoneType' object is not subscriptable")
    case Num(_) => Failure("'int' object is not subscriptable")
    case Bool(_) => Failure("'bool' object is not subscriptable")
  }

  /** `v[k0][k1]...`, failing at the first step that fails. */
  function Path(v: Json, keys: seq<string>): (r: Result<Json, string>)
    decreases |keys|
  {
    if |keys| == 0 then Success(v)
    else
      match Index(v, keys[0])
      case Failure(m) => Failure(m)
      case Success(w) => Path(w, keys[1..])
  }

  /** The reads of `video_data`'s literal, in order. */
  const VideoPaths: seq<seq<string>> := [
    ["id", "videoId"], ["snippet", "title"], ["snippet", "description"],
    ["snippet", "thumbnails", "high", "url"], ["snippet", "channelTitle"], ["snippet", "publishedAt"]]

  /** Each path read from the item in turn, failing at the first that fails. */
  function ReadAll(item: Json, paths: seq<seq<string>>): (r: Result<seq<Json>, string>)
    ensures r.Success? ==> |r.value| == |paths|
    ensures r.Success? <==> forall i :: 0 <= i < |paths| ==> Path(item, paths[i]).Success?
    ensures r.Success? ==> forall i :: 0 <= i < |paths| ==> r.value[i] == Path(item, paths[i]).value
    decreases |paths|
  {
    if |paths| == 0 then Success([])
    else
      match Path(item, paths[0])
      case Failure(m) => Failure(m)
      case Success(v) =>
        assert forall i :: 1 <= i < |paths| ==> paths[i] == paths[1..][i - 1];
        match ReadAll(item, paths[1..])
        case Failure(m) => Failure(m)
        case Success(vs) => Success([v] + vs)
  }

  /** The `video_data` dictionary built from one item. */
  function VideoOf(item: Json): (r: Result<Video, string>)
    ensures !item.Obj? ==> r.Failure?
  {
    match ReadAll(item, VideoPaths)
    case Failure(m) => Failure(m)
    case Success(vs) => Success(Video(vs[0], vs[1], vs[2], vs[3], vs[4], vs[5]))
  }

  /** The search result item YouTube sends for a video: the shape the
      handler's reads expect. */
  function ItemOf(v: Video): Json {
    Obj([("id", Obj([("videoId", v.videoId)])),
         ("snippet", Obj([("title", v.title), ("description", v.description),
                          ("thumbnails", Obj([("high", Obj([("url", v.thumbnailUrl)]))])),
                          ("channelTitle", v.channelTitle), ("publishedAt", v.publishedAt)]))])
  }

  /** Reading an item built from a video gives that video back. */
  lemma VideoOfItemOf(v: Video)
    ensures VideoOf(ItemOf(v)) == Success(v)
  {
    var item := ItemOf(v);
    var ms := item.members;
    var sn := ms[1].1.members;
    assert Lookup(ms, "snippet") == Lookup(ms[1..], "snippet");
    assert Lookup(sn, "description") == Lookup(sn[1..], "description");
    assert Lookup(sn, "thumbnails") == Lookup(sn[1..], "thumbnails") == Lookup(sn[1..][1..], "thumbnails");
    assert Lookup(sn, "channelTitle") == Lookup(sn[1..], "channelTitle") == Lookup(sn[1..][1..], "channelTitle")
        == Lookup(sn[1..][1..][1..], "channelTitle");
    assert Lookup(sn, "publishedAt") == Lookup(sn[1..], "publishedAt") == Lookup(sn[1..][1..], "publishedAt")
        == Lookup(sn[1..][1..][1..], "publishedAt") == Lookup(sn[1..][1..][1..][1..], "publishedAt");
    assert Path(item, ["id", "videoId"]) == Success(v.videoId);
    assert Path(item, ["snippet", "title"]) == Success(v.title);
    assert Path(item, ["snippet", "description"]) == Success(v.description);
    assert Path(item, ["snippet", "thumbnails", "high", "url"]) == Success(v.thumbnailUrl);
    assert Path(item, ["snippet", "channelTitle"]) == Success(v.channelTitle);
    assert Path(item, ["snippet", "publishedAt"]) == Success(v.publishedAt);
  }

  /** The loop over the items, with `read` the mapping of one item: one
      video per item, in order, or the error of the first item that
      cannot be read. */
  function VideosFrom(items: seq<Json>, read: Json -> Result<Video, string>): (r: Result<seq<Video>, string>)
    ensures r.Success? <==> forall i :: 0 <= i < |items| ==> read(items[i]).Success?
    ensures r.Success? ==> |r.value| == |items| && forall i :: 0 <= i < |items| ==> r.value[i] == read(items[i]).value
    ensures |items| > 0 && read(items[0]).Failure? ==> r == Failure(read(items[0]).error)
    decreases |items|
  {
    if |items| == 0 then Success([])
    else
      match read(items[0])
      case Failure(m) => Failure(m)
      case Success(v) =>
        var rest := VideosFrom(items[1..], read);
        assert forall i :: 1 <= i < |items| ==> items[i] == items[1..][i - 1];
        match rest
        case Failure(m) => Failure(m)
        case Success(vs) => Success([v] + vs)
  }

  /** Whether `t` occurs in `s` (Python's `t in s` on strings). */
  predicate Contains(s: string, t: string)
    decreases |s|
  {
    |s| >= |t| && (s[..|t|] == t || (|s| > 0 && Contains(s[1..], t)))
  }

  /** `'items' not in data or not data['items']`: `None` when the search
      found nothing, the items value otherwise, or the `TypeError` a
      non-object answer raises. */
  function ItemsOf(data: Json): (r: Result<Option<Json>, string>)
    ensures data.Obj? ==> r.Success?
    ensures data.Obj? && !(Lookup(data.members, "items").Some? && PyTruthy(Lookup(data.members, "items").value))
            ==> r == Success(None)
    ensures data.Obj? && Lookup(data.members, "items").Some? && PyTruthy(Lookup(data.members, "items").value)
            ==> r == Success(Lookup(data.members, "items"))
    ensures r.Success? && r.value.Some? ==> PyTruthy(r.value.value)
  {
    match data
    case Obj(ms) =>
      (match Lookup(ms, "items")
       case Some(x) => if PyTruthy(x) then Success(Some(x)) else Success(None)
       case None => Success(None))
    case Arr(xs) => if Str("items") in xs then Failure("list indices must be integers or slices, not str") else Success(None)
    case Str(s) => if Contains(s, "items") then Failure("string indices must be integers") else Success(None)
    case Null => Failure("argument of type 'NoneType' is not iterable")
    case Num(_) => Failure("argument of type 'int' is not iterable")
    case Bool(_) => Failure("argument of type 'bool' is not iterable")
  }

  /** What `for item in value` iterates over: a list's elements, a
      dictionary's keys, a string's characters. */
  function Elements(v: Json): (r: Result<seq<Json>, string>)
    ensures v.Arr? ==> r == Success(v.items)
    ensures PyTruthy(v) && !v.Arr? && r.Success? ==> |r.value| > 0 && forall i :: 0 <= i < |r.value| ==> r.value[i].Str?
  {
    match v
    case Arr(xs) => Success(xs)
    case Obj(ms) => Success(seq(|ms|, i requires 0 <= i < |ms| => Str(ms[i].0)))
    case Str(s) => Success(seq(|s|, i requires 0 <= i < |s| => Str([s[i]])))
    case Null => Failure("'NoneType' object is not iterable")
    case Num(_) => Failure("'int' object is not iterable")
    case Bool(_) => Failure("'bool' object is not iterable")
  }

  const SearchPrefix := "Error searching YouTube videos: "
  const RequestPrefix := "YouTube API request failed: "
  const KeyMissingDetail := "YouTube API key not configured"

  /** The missing key's 500 after the generic handler rewraps it. */
  const KeyMissingText := SearchPrefix + "500: " + KeyMissingDetail

  lemma KeyMissingRewrapped()
    ensures Fastapi.Rewrap(SearchPrefix, Fastapi.Http(Fastapi.HttpError(500, KeyMissingDetail)))
         == Fastapi.HttpError(500, KeyMissingText)
  {
    Fastapi.StatusText(500);
    assert Text.IntToString(500) == "500";
    var d := Fastapi.Describe(Fastapi.Http(Fastapi.HttpError(500, KeyMissingDetail)));
    assert d == "500: " + KeyMissingDetail;
  }

  /** The query parameters of the search request. */
  function SearchParams(recipeName: string, key: string): seq<(string, string)> {
    [("part", "snippet"), ("q", recipeName + " recipe"), ("type", "video"), ("maxResults", "4"), ("key", key)]
  }

  /** The search's request, if one was made, and its outcome. */
  datatype Searched = Searched(params: Option<seq<(string, string)>>, outcome: Result<seq<Video>, Fastapi.HttpError>)

  /** `search_youtube_videos`: `apiKey` is the configured key, `fetched`
      the decoded answer or the text of the `RequestException` raised by
      the request, its status check or its decoding. */
  function SearchYoutube(user: Result<Models.User, Fastapi.HttpError>, apiKey: Option<string>, recipeName: string,
                         fetched: Result<Json, string>)
    : (s: Searched)
    ensures user.Failure? ==> s == Searched(None, Failure(user.error))
    ensures user.Success? && (apiKey.None? || apiKey.value == "") ==>
      s == Searched(None, Failure(Fastapi.HttpError(500, KeyMissingText)))
    ensures s.params.Some? <==> user.Success? && apiKey.Some? && apiKey.value != ""
    ensures s.params.Some? ==> s.params.value == SearchParams(recipeName, apiKey.value)
    ensures s.params.Some? && fetched.Failure? ==>
      s.outcome == Failure(Fastapi.HttpError(503, RequestPrefix + fetched.error))
    ensures s.params.Some? && fetched.Success? && ItemsOf(fetched.value) == Success(None) ==>
      s.outcome == Success([])
    ensures s.params.Some? && fetched.Success? && ItemsOf(fetched.value).Success?
            && ItemsOf(fetched.value).value.Some? && ItemsOf(fetched.value).value.value.Arr? ==>
      var items := ItemsOf(fetched.value).value.value.items;
      && (s.outcome.Success? <==> VideosFrom(items, VideoOf).Success?)
      && (s.outcome.Success? ==> s.outcome.value == VideosFrom(items, VideoOf).value)
      && (s.outcome.Failure? ==> s.outcome.error == Fastapi.HttpError(500, SearchPrefix + VideosFrom(items, VideoOf).error))
    ensures s.params.Some? && fetched.Success? && ItemsOf(fetched.value).Failure? ==>
      s.outcome == Failure(Fastapi.HttpError(500, SearchPrefix + ItemsOf(fetched.value).error))
    ensures s.params.Some? && fetched.Success? && ItemsOf(fetched.value).Success?
            && ItemsOf(fetched.value).value.Some? && !ItemsOf(fetched.value).value.value.Arr? ==>
      s.outcome.Failure?
    ensures s.params.Some? && fetched.Success? && s.outcome.Failure? ==>
      && s.outcome.error.status == 500
      && |s.outcome.error.detail| >= |SearchPrefix| && s.outcome.error.detail[..|SearchPrefix|] == SearchPrefix
    ensures s.outcome.Failure? ==> s.outcome.error.status in {500, 503} || user.Failure?
  {
    match user
    case Failure(e) => Searched(None, Failure(e))
    case Success(_) =>
      if apiKey.None? || apiKey.value == "" then
        KeyMissingRewrapped();
        Searched(None, Failure(Fastapi.Rewrap(SearchPrefix, Fastapi.Http(Fastapi.HttpError(500, KeyMissingDetail)))))
      else
        var params := SearchParams(recipeName, apiKey.value);
        match fetched
        case Failure(m) => Searched(Some(params), Failure(Fastapi.HttpError(503, RequestPrefix + m)))
        case Success(data) =>
          match ItemsOf(data)
          case Failure(m) => Searched(Some(params), Failure(Fastapi.Rewrap(SearchPrefix, Fastapi.Other(m))))
          case Success(None) => Searched(Some(params), Success([]))
          case Success(Some(x)) =>
            match Elements(x)
            case Failure(m) => Searched(Some(params), Failure(Fastapi.Rewrap(SearchPrefix, Fastapi.Other(m))))
            case Success(items) =>
              match VideosFrom(items, VideoOf)
              case Failure(m) => Searched(Some(params), Failure(Fastapi.Rewrap(SearchPrefix, Fastapi.Other(m))))
              case Success(videos) => Searched(Some(params), Success(videos))
  }

  /** An answer with no `items`, or with an empty list of them, gives no
      videos. */
  lemma NoItemsNoVideos(user: Models.User, key: string, recipeName: string, rest: seq<(string, Json)>)
    requires key != ""
    requires forall i :: 0 <= i < |rest| ==> rest[i].0 != "items"
    ensures SearchYoutube(Success(user), Some(key), recipeName, Success(Obj(rest))).outcome == Success([])
    ensures SearchYoutube(Success(user), Some(key), recipeName,
                          Success(Obj([("items", Arr([]))] + rest))).outcome == Success([])
  {
  }

  /** An answer listing the items of some videos returns exactly those
      videos, in order. */
  lemma SearchFindsListedVideos(user: Models.User, key: string, recipeName: string, videos: seq<Video>)
    requires key != "" && |videos| > 0
    ensures var items := seq(|videos|, i requires 0 <= i < |videos| => ItemOf(videos[i]));
      SearchYoutube(Success(user), Some(key), recipeName, Success(Obj([("items", Arr(items))]))).outcome
        == Success(videos)
  {
    var items := seq(|videos|, i requires 0 <= i < |videos| => ItemOf(videos[i]));
    forall i | 0 <= i < |videos|
      ensures VideoOf(items[i]) == Success(videos[i])
    {
      VideoOfItemOf(videos[i]);
    }
    var data := Obj([("items", Arr(items))]);
    assert Lookup(data.members, "items") == Some(Arr(items));
    assert ItemsOf(data) == Success(Some(Arr(items)));
    var r := VideosFrom(items, VideoOf);
    assert r.Success?;
    assert r.value == videos;
  }

  // ---------------------------------------------------------------------
  // Saved recipes

  /** The recipe fields of `SavedRecipeCreate` other than its videos, as
      the JSON columns store and give them back. */
  datatype RecipeFields = RecipeFields(
    name: Json, available: Json, needed: Json, instructions: Json,
    prepTime: Json, cookTime: Json, totalTime: Json, servings: Json, nutrition: Json)

  /** The `SavedRecipeCreate` body. */
  datatype RecipeIn = RecipeIn(fields: RecipeFields, videos: seq<Video>)

  /** A row of the saved recipes table and of its videos table. */
  datatype RecipeRow = RecipeRow(id: int, userId: int, fields: RecipeFields)
  datatype VideoRow = VideoRow(recipeId: int, video: Video)

  datatype Store = Store(recipes: seq<RecipeRow>, videos: seq<VideoRow>)

  /** A `SavedRecipeOut` response. */
  datatype SavedOut = SavedOut(id: int, userId: int, fields: RecipeFields, videos: seq<Video>)

  /** The video rows stored for a recipe, in input order. */
  function VideoRows(recipeId: int, videos: seq<Video>): (r: seq<VideoRow>)
    ensures |r| == |videos|
    ensures forall i :: 0 <= i < |r| ==> r[i] == VideoRow(recipeId, videos[i])
  {
    seq(|videos|, i requires 0 <= i < |videos| => VideoRow(recipeId, videos[i]))
  }

  /** Where a save's database failure happens, if anywhere. */
  datatype SaveFault = SaveOk | RecipeCommitFault(text: string) | VideoCommitFault(text: string)

  /** A save's response and the store it leaves. */
  datatype Saved = Saved(response: Result<SavedOut, Fastapi.HttpError>, store: Store)

  const SavePrefix := "Error saving recipe: "

  /** `save_recipe` as written: the recipe row is committed on its own
      before the video rows are added and committed, so a failure of the
      second commit rolls back only the videos. */
  function SaveRecipeAsWritten(user: Result<Models.User, Fastapi.HttpError>, store: Store, data: RecipeIn,
                               newId: int, fault: SaveFault)
    : (s: Saved)
    ensures user.Failure? ==> s == Saved(Failure(user.error), store)
    ensures user.Success? && fault.RecipeCommitFault? ==>
      s == Saved(Failure(Fastapi.HttpError(500, SavePrefix + fault.text)), store)
    ensures user.Success? && fault.VideoCommitFault? ==>
      s == Saved(Failure(Fastapi.HttpError(500, SavePrefix + fault.text)),
                 store.(recipes := store.recipes + [RecipeRow(newId, user.value.id, data.fields)]))
    ensures user.Success? && fault.SaveOk? ==>
      s == Saved(Success(SavedOut(newId, user.value.id, data.fields, data.videos)),
                 Store(store.recipes + [RecipeRow(newId, user.value.id, data.fields)],
                       store.videos + VideoRows(newId, data.videos)))
  {
    match user
    case Failure(e) => Saved(Failure(e), store)
    case Success(u) =>
      var row := RecipeRow(newId, u.id, data.fields);
      match fault
      case RecipeCommitFault(m) => Saved(Failure(Fastapi.Rewrap(SavePrefix, Fastapi.Other(m))), store)
      case VideoCommitFault(m) =>
        Saved(Failure(Fastapi.Rewrap(SavePrefix, Fastapi.Other(m))), store.(recipes := store.recipes + [row]))
      case SaveOk =>
        Saved(Success(SavedOut(newId, u.id, data.fields, data.videos)),
              Store(store.recipes + [row], store.videos + VideoRows(newId, data.videos)))
  }

  /** As written, a save that answers 500 can still have stored the
      recipe, without its videos. */
  lemma PartialSaveOnVideoFailure(u: Models.User, data: RecipeIn, newId: int, m: string)
    ensures var s := SaveRecipeAsWritten(Success(u), Store([], []), data, newId, VideoCommitFault(m));
      && s.response.Failure? && s.response.error.status == 500
      && s.store.recipes == [RecipeRow(newId, u.id, data.fields)] && s.store.videos == []
  {
  }

  /** `save_recipe` with the recipe and its videos committed together: a
      failure anywhere leaves the store as it was, success stores the
      recipe under the current user with one row per video and echoes
      the input. */
  function SaveRecipe(user: Result<Models.User, Fastapi.HttpError>, store: Store, data: RecipeIn,
                      newId: int, fault: SaveFault)
    : (s: Saved)
    ensures s.response.Failure? ==> s.store == store
    ensures user.Success? && !fault.SaveOk? ==>
      s.response == Failure(Fastapi.HttpError(500, SavePrefix + fault.text))
    ensures user.Failure? ==> s.response == Failure(user.error)
    ensures s.response.Success? <==> user.Success? && fault.SaveOk?
    ensures s.response.Success? ==>
      && s.response.value == SavedOut(newId, user.value.id, data.fields, data.videos)
      && s.store == Store(store.recipes + [RecipeRow(newId, user.value.id, data.fields)],
                          store.videos + VideoRows(newId, data.videos))
  {
    var asWritten := SaveRecipeAsWritten(user, store, data, newId, fault);
    if asWritten.response.Success? then asWritten else Saved(asWritten.response, store)
  }

  /** No two recipe rows share an id, as the primary key guarantees. */
  predicate UniqueRecipeIds(rows: seq<RecipeRow>) {
    forall i, j :: 0 <= i < j < |rows| ==> rows[i].id != rows[j].id
  }

  /** The saved recipes of user `uid`, in table order. */
  function Owned(rows: seq<RecipeRow>, uid: int): (r: seq<RecipeRow>)
    ensures forall i :: 0 <= i < |r| ==> r[i].userId == uid && r[i] in rows
    ensures forall row :: row in rows && row.userId == uid ==> row in r
    ensures |r| <= |rows|
    ensures UniqueRecipeIds(rows) ==> UniqueRecipeIds(r)
    decreases |rows|
  {
    if |rows| == 0 then []
    else
      var front := rows[..|rows| - 1];
      var last := rows[|rows| - 1];
      var init := Owned(front, uid);
      assert forall row :: row in rows ==> row in front || row == last;
      assert UniqueRecipeIds(rows) ==> UniqueRecipeIds(front) && forall x :: x in front ==> x.id != last.id by {
        if UniqueRecipeIds(rows) {
          forall x | x in front ensures x.id != last.id {
            var j :| 0 <= j < |front| && front[j] == x;
            assert rows[j] == x;
          }
        }
      }
      init + (if last.userId == uid then [last] else [])
  }

  /** `recipe.youtube_videos`: the videos stored for recipe `rid`, in table order. */
  function VideosOf(videos: seq<VideoRow>, rid: int): seq<Video>
    decreases |videos|
  {
    if |videos| == 0 then []
    else VideosOf(videos[..|videos| - 1], rid)
         + (if videos[|videos| - 1].recipeId == rid then [videos[|videos| - 1].video] else [])
  }

  /** A recipe row with its videos, as the listing returns it. */
  function OutOf(store: Store, row: RecipeRow): SavedOut {
    SavedOut(row.id, row.userId, row.fields, VideosOf(store.videos, row.id))
  }

  const ListPrefix := "Error retrieving saved recipes: "

  /** `get_saved_recipes`, given the store as the query sees it or the
      query's failure: only the current user's recipes, each with its
      own videos. */
  function GetSavedRecipes(user: Result<Models.User, Fastapi.HttpError>, store: Result<Store, string>)
    : (r: Result<seq<SavedOut>, Fastapi.HttpError>)
    ensures user.Failure? ==> r == Failure(user.error)
    ensures user.Success? && store.Failure? ==> r == Failure(Fastapi.HttpError(500, ListPrefix + store.error))
    ensures r.Success? <==> user.Success? && store.Success?
    ensures r.Success? ==> forall i :: 0 <= i < |r.value| ==>
      && r.value[i].userId == user.value.id
      && exists row :: row in store.value.recipes && r.value[i] == OutOf(store.value, row)
    ensures r.Success? ==> forall row :: row in store.value.recipes && row.userId == user.value.id ==>
      OutOf(store.value, row) in r.value
    ensures r.Success? ==> |r.value| <= |store.value.recipes|
    ensures r.Success? && UniqueRecipeIds(store.value.recipes) ==>
      forall i, j :: 0 <= i < j < |r.value| ==> r.value[i].id != r.value[j].id
  {
    match user
    case Failure(e) => Failure(e)
    case Success(u) =>
      match store
      case Failure(m) => Failure(Fastapi.Rewrap(ListPrefix, Fastapi.Other(m)))
      case Success(st) =>
        var owned := Owned(st.recipes, u.id);
        var out := seq(|owned|, i requires 0 <= i < |owned| => OutOf(st, owned[i]));
        assert forall row :: row in st.recipes && row.userId == u.id ==> OutOf(st, row) in out by {
          forall row | row in st.recipes && row.userId == u.id ensures OutOf(st, row) in out {
            var k :| 0 <= k < |owned| && owned[k] == row;
            assert out[k] == OutOf(st, row);
          }
        }
        Success(out)
  }

  /** Video rows appended later add only to their own recipe's list. */
  lemma {:induction false} VideosOfAppend(videos: seq<VideoRow>, recipeId: int, added: seq<Video>, rid: int)
    ensures VideosOf(videos + VideoRows(recipeId, added), rid)
         == VideosOf(videos, rid) + (if rid == recipeId then added else [])
    decreases |added|
  {
    var all := videos + VideoRows(recipeId, added);
    if |added| == 0 {
      assert all == videos;
    } else {
      var init := added[..|added| - 1];
      assert all[..|all| - 1] == videos + VideoRows(recipeId, init);
      assert all[|all| - 1] == VideoRow(recipeId, added[|added| - 1]);
      VideosOfAppend(videos, recipeId, init, rid);
      assert init + [added[|added| - 1]] == added;
    }
  }

  /** Rows of other recipes do not change a recipe's listing. */
  lemma {:induction false} RowsOfOthers(store: Store, row: RecipeRow, newId: int, added: seq<Video>)
    requires row.id != newId
    ensures VideosOf(store.videos + VideoRows(newId, added), row.id) == VideosOf(store.videos, row.id)
  {
    VideosOfAppend(store.videos, newId, added, row.id);
  }

  /** A fresh id: no stored recipe or video row uses it. */
  predicate Fresh(store: Store, id: int) {
    && (forall i :: 0 <= i < |store.recipes| ==> store.recipes[i].id != id)
    && (forall i :: 0 <= i < |store.videos| ==> store.videos[i].recipeId != id)
  }

  /** No video row carries the id. */
  lemma {:induction false} NoVideosForFreshId(videos: seq<VideoRow>, id: int)
    requires forall i :: 0 <= i < |videos| ==> videos[i].recipeId != id
    ensures VideosOf(videos, id) == []
    decreases |videos|
  {
    if |videos| > 0 {
      NoVideosForFreshId(videos[..|videos| - 1], id);
    }
  }

  /** Save, then list: under a fresh id, the saved recipe is listed for its
      owner exactly as the save echoed it, and its videos are exactly the
      ones sent. */
  lemma SaveThenList(u: Models.User, store: Store, data: RecipeIn, newId: int)
    requires Fresh(store, newId)
    ensures var s := SaveRecipe(Success(u), store, data, newId, SaveOk);
      && s.response.Success?
      && GetSavedRecipes(Success(u), Success(s.store)).Success?
      && s.response.value in GetSavedRecipes(Success(u), Success(s.store)).value
  {
    var s := SaveRecipe(Success(u), store, data, newId, SaveOk);
    var row := RecipeRow(newId, u.id, data.fields);
    assert row in s.store.recipes;
    NoVideosForFreshId(store.videos, newId);
    VideosOfAppend(store.videos, newId, data.videos, newId);
    assert OutOf(s.store, row) == s.response.value;
  }

  /** Saving for one user leaves every other user's listing as it was. */
  lemma SaveKeepsOthers(u: Models.User, store: Store, data: RecipeIn, newId: int, other: Models.User)
    requires Fresh(store, newId) && other.id != u.id
    ensures var s := SaveRecipe(Success(u), store, data, newId, SaveOk);
      GetSavedRecipes(Success(other), Success(s.store)) == GetSavedRecipes(Success(other), Success(store))
  {
    var s := SaveRecipe(Success(u), store, data, newId, SaveOk);
    var rows := store.recipes + [RecipeRow(newId, u.id, data.fields)];
    assert rows[..|rows| - 1] == store.recipes;
    var owned := Owned(store.recipes, other.id);
    assert Owned(rows, other.id) == owned;
    forall i | 0 <= i < |owned| ensures OutOf(s.store, owned[i]) == OutOf(store, owned[i]) {
      assert owned[i] in store.recipes;
      RowsOfOthers(store, owned[i], newId, data.videos);
    }
    var after := seq(|owned|, i requires 0 <= i < |owned| => OutOf(s.store, owned[i]));
    var before := seq(|owned|, i requires 0 <= i < |owned| => OutOf(store, owned[i]));
    assert after == before;
  }
}
