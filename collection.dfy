/**
 * The script's last stage: a single song is downloaded directly; a playlist
 * or album response is turned into `[str(song['id']) for song in res['songs']]`
 * and each id is passed to `download_song` in order.
 */
module Collection {
  import opened Wrappers
  import opened Json
  import opened Menu
  import opened Pipeline
  import opened Download

  /** The Python exceptions the id extraction can raise: KeyError or TypeError. */
  datatype ExpansionError = MissingKey | WrongType | UnmodelledId

  /** The catalog endpoint a collection is fetched from. */
  function CollectionUrl(kind: DownloadType, base: string, collectionId: string): (r: string)
    requires kind != Song
    ensures |r| > |base| + |collectionId|
    ensures r[..|base|] == base && r[|r| - |collectionId|..] == collectionId
  {
    if kind == Playlist then base + "/playlist/track/all?id=" + collectionId
    else base + "/album?id=" + collectionId
  }

  /**
   * The elements `for song in v` visits, when the first of them can be
   * subscripted with 'id' at all. Iterating a non-empty string or dict yields
   * strings, which fail at `song['id']`; scalars are not iterable.
   */
  function Iterate(v: Json): (r: Result<seq<Json>, ExpansionError>)
    ensures r.Ok? ==> v.List? || v == Str("") || v == Object(map[])
    ensures v.List? ==> r == Ok(v.items)
  {
    match v
    case List(items) => Ok(items)
    case Str(s) => if s == "" then Ok([]) else Err(WrongType)
    case Object(fields) => if fields == map[] then Ok([]) else Err(WrongType)
    case _ => Err(WrongType)
  }

  /** `str(song['id'])` for one element of the list. */
  function SongIdOf(song: Json): (r: Result<string, ExpansionError>)
    ensures r.Ok? <==> song.Object? && "id" in song.fields && PyStr(song.fields["id"]).Some?
    ensures r.Ok? ==> r.value == PyStr(song.fields["id"]).value
  {
    match song
    case Object(fields) =>
      if "id" !in fields then Err(MissingKey)
      else (match PyStr(fields["id"])
        case Some(s) => Ok(s)
        case None => Err(UnmodelledId))
    case _ => Err(WrongType)
  }

  /**
   * The list comprehension over the songs: one id per element, in response
   * order; the first element that fails raises.
   */
  function SongIds(songs: seq<Json>): (r: Result<seq<string>, ExpansionError>)
    ensures r.Ok? ==> |r.value| == |songs| && forall k :: 0 <= k < |songs| ==> SongIdOf(songs[k]) == Ok(r.value[k])
    ensures r.Err? ==> exists k :: 0 <= k < |songs| && SongIdOf(songs[k]) == Err(r.error)
                                   && forall j :: 0 <= j < k ==> SongIdOf(songs[j]).Ok?
    ensures r.Ok? <==> forall k :: 0 <= k < |songs| ==> SongIdOf(songs[k]).Ok?
  {
    if songs == [] then Ok([])
    else match SongIdOf(songs[0])
      case Err(e) => Err(e)
      case Ok(id) =>
        match SongIds(songs[1..])
        case Err(e) =>
          var k :| 0 <= k < |songs[1..]| && SongIdOf(songs[1..][k]) == Err(e)
                   && forall j :: 0 <= j < k ==> SongIdOf(songs[1..][j]).Ok?;
          assert SongIdOf(songs[k + 1]) == Err(e);
          Err(e)
        case Ok(rest) => Ok([id] + rest)
  }

  /** `[str(song['id']) for song in res['songs']]` for the whole response. */
  function ExpandCollection(response: Json): (r: Result<seq<string>, ExpansionError>)
    ensures r.Ok? ==> response.Object? && "songs" in response.fields
                      && Iterate(response.fields["songs"]).Ok?
                      && |r.value| == |Iterate(response.fields["songs"]).value|
  {
    match response
    case Object(fields) =>
      if "songs" !in fields then Err(MissingKey)
      else (match Iterate(fields["songs"])
        case Err(e) => Err(e)
        case Ok(songs) => SongIds(songs))
    case _ => Err(WrongType)
  }

  /**
   * For a well-formed response the ids are the songs' ids in response order;
   * numeric ids are their decimal text, so `int` recovers them.
   */
  lemma ExpandCollectionIds(songs: seq<Json>, rest: map<string, Json>)
    requires forall k :: 0 <= k < |songs| ==> songs[k].Object? && "id" in songs[k].fields && songs[k].fields["id"].Int?
    ensures var r := ExpandCollection(Object(rest["songs" := List(songs)]));
      && r.Ok? && |r.value| == |songs|
      && forall k :: 0 <= k < |songs| ==>
           r.value[k] == IntToString(songs[k].fields["id"].i)
           && ParseInt(r.value[k]) == Some(songs[k].fields["id"].i)
  {
    var r := ExpandCollection(Object(rest["songs" := List(songs)]));
    assert r == SongIds(songs);
    forall k | 0 <= k < |songs|
      ensures r.value[k] == IntToString(songs[k].fields["id"].i)
      ensures ParseInt(r.value[k]) == Some(songs[k].fields["id"].i)
    {
      IntToStringRoundTrip(songs[k].fields["id"].i);
    }
  }

  /** Distinct numeric ids give distinct strings: no song is downloaded in place of another. */
  lemma ExpandCollectionDistinct(songs: seq<Json>, rest: map<string, Json>, j: nat, k: nat)
    requires forall i :: 0 <= i < |songs| ==> songs[i].Object? && "id" in songs[i].fields && songs[i].fields["id"].Int?
    requires j < |songs| && k < |songs|
    requires songs[j].fields["id"] != songs[k].fields["id"]
    ensures var r := ExpandCollection(Object(rest["songs" := List(songs)]));
      r.Ok? && r.value[j] != r.value[k]
  {
    ExpandCollectionIds(songs, rest);
    IntToStringInjective(songs[j].fields["id"].i, songs[k].fields["id"].i);
  }

  /** An oracle for every song of a list: enough attempts for each call. */
  predicate EnoughAttempts(perSong: seq<seq<Attempt>>, count: nat) {
    |perSong| >= count && forall k :: 0 <= k < |perSong| ==> |perSong[k]| >= MaxAttempts
  }

  /** The first `count` calls of the loop, each with its own id and oracle. */
  ghost predicate CalledInOrder(runs: seq<SongRun>, base: string, quality: Quality, lyricOption: string,
                                ids: seq<string>, perSong: seq<seq<Attempt>>)
    requires EnoughAttempts(perSong, |ids|)
  {
    && |runs| <= |ids|
    && forall k :: 0 <= k < |runs| ==> runs[k] == SongRunOf(Job(base, ids[k], quality, lyricOption), perSong[k])
  }

  /** One more call of the loop keeps the runs in call order. */
  lemma CalledInOrderExtend(runs: seq<SongRun>, run: SongRun, base: string, quality: Quality, lyricOption: string,
                            ids: seq<string>, perSong: seq<seq<Attempt>>)
    requires EnoughAttempts(perSong, |ids|)
    requires CalledInOrder(runs, base, quality, lyricOption, ids, perSong) && |runs| < |ids|
    requires run == SongRunOf(Job(base, ids[|runs|], quality, lyricOption), perSong[|runs|])
    ensures CalledInOrder(runs + [run], base, quality, lyricOption, ids, perSong)
  {
    var next := runs + [run];
    forall k | 0 <= k < |next|
      ensures next[k] == SongRunOf(Job(base, ids[k], quality, lyricOption), perSong[k])
    {
      if k < |runs| {
        assert next[k] == runs[k];
      }
    }
  }

  /**
   * `for sid in song_ids: download_song(sid, quality, lyric_option)`: each id
   * once, in order. A non-request exception escaping a call ends the loop (and
   * the script), so later ids are never tried.
   */
  method DownloadAll(base: string, quality: Quality, lyricOption: string, ids: seq<string>, perSong: seq<seq<Attempt>>)
      returns (runs: seq<SongRun>)
    requires EnoughAttempts(perSong, |ids|)
    ensures |runs| <= |ids|
    ensures forall k :: 0 <= k < |runs| ==> runs[k] == SongRunOf(Job(base, ids[k], quality, lyricOption), perSong[k])
    ensures forall k :: 0 <= k < |runs| - 1 ==> runs[k].result != Crashed
    ensures |runs| < |ids| ==> |runs| > 0 && runs[|runs| - 1].result == Crashed
  {
    runs := [];
    while |runs| < |ids|
      invariant CalledInOrder(runs, base, quality, lyricOption, ids, perSong)
      invariant forall j :: 0 <= j < |runs| ==> runs[j].result != Crashed
    {
      var run := DownloadSong(Job(base, ids[|runs|], quality, lyricOption), perSong[|runs|]);
      CalledInOrderExtend(runs, run, base, quality, lyricOption, ids, perSong);
      runs := runs + [run];
      if run.result == Crashed {
        return;
      }
    }
  }

  /** How the script ends: `exit()` on a bad choice, the final prompt, or an escaped exception. */
  datatype ScriptEnd = InvalidChoice | Finished | Aborted

  /**
   * The script from the download-type choice on, with the console answers
   * and the collection response as inputs (`fetched` is None when the
   * collection request or its JSON decoding raises): which collection URL
   * it requests, which ids it downloads in order, and how it ends.
   */
  method RunDownloads(base: string, choice: string, idAnswer: string, qualityChoice: string, lyricOption: string,
                      fetched: Option<Json>, perSong: seq<seq<Attempt>>)
      returns (end: ScriptEnd, collectionRequest: Option<string>, runs: seq<SongRun>)
    requires EnoughAttempts(perSong, 1)
    requires fetched.Some? && ExpandCollection(fetched.value).Ok? ==>
      EnoughAttempts(perSong, |ExpandCollection(fetched.value).value|)
    ensures end == InvalidChoice <==> SelectDownloadType(choice).None?
    ensures SelectDownloadType(choice).None? ==> collectionRequest.None? && runs == []
    ensures SelectDownloadType(choice) == Some(Song) ==>
      && collectionRequest.None?
      && runs == [SongRunOf(Job(base, idAnswer, SelectQuality(qualityChoice), lyricOption), perSong[0])]
      && end == (if runs[0].result == Crashed then Aborted else Finished)
    ensures SelectDownloadType(choice) in {Some(Playlist), Some(Album)} ==>
      && collectionRequest == Some(CollectionUrl(SelectDownloadType(choice).value, base, idAnswer))
      && (fetched.None? || ExpandCollection(fetched.value).Err? ==> end == Aborted && runs == [])
      && (fetched.Some? && ExpandCollection(fetched.value).Ok? ==>
            var ids := ExpandCollection(fetched.value).value;
            && |runs| <= |ids|
            && (forall k :: 0 <= k < |runs| ==>
                  runs[k] == SongRunOf(Job(base, ids[k], SelectQuality(qualityChoice), lyricOption), perSong[k]))
            && (forall k :: 0 <= k < |runs| - 1 ==> runs[k].result != Crashed)
            && (|runs| < |ids| ==> |runs| > 0 && runs[|runs| - 1].result == Crashed)
            && end == (if |runs| == |ids| && forall k :: 0 <= k < |runs| ==> runs[k].result != Crashed
                       then Finished else Aborted))
  {
    var kind := SelectDownloadType(choice);
    if kind.None? {
      return InvalidChoice, None, [];
    }
    var quality := SelectQuality(qualityChoice);
    if kind.value == Song {
      var run := DownloadSong(Job(base, idAnswer, quality, lyricOption), perSong[0]);
      runs := [run];
      end := if run.result == Crashed then Aborted else Finished;
      collectionRequest := None;
    } else {
      collectionRequest := Some(CollectionUrl(kind.value, base, idAnswer));
      if fetched.None? {
        return Aborted, collectionRequest, [];
      }
      match ExpandCollection(fetched.value)
      case Err(_) =>
        end, runs := Aborted, [];
      case Ok(ids) =>
        runs := DownloadAll(base, quality, lyricOption, ids, perSong);
        end := if |runs| == |ids| && (|runs| == 0 || runs[|runs| - 1].result != Crashed) then Finished else Aborted;
    }
  }
}
