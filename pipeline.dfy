/**
 * One attempt of `download_song`: the requests, file writes and tag writes it
 * performs, in order, given what the catalog answers. Network, disk and
 * tagging are not executed; each appears as an effect the attempt emits.
 */
module Pipeline {
  import opened Wrappers
  import opened Menu
  import opened Naming

  /** The song record of the detail response; `al.picUrl` is None for JSON null. */
  datatype SongInfo = SongInfo(name: string, artist: string, album: string, picUrl: Option<string>)

  /**
   * What the catalog answered during one attempt: the song record, the
   * `data[0].url` field (None for JSON null), and the lyric text.
   */
  datatype Responses = Responses(info: SongInfo, songUrl: Option<string>, lyrics: string)

  /** The parameters `download_song` is called with, and the API base URL it reads. */
  datatype Job = Job(base: string, songId: string, quality: Quality, lyricOption: string)

  datatype Effect =
    | RequestDetail(url: string)
    | RequestAudioUrl(url: string)
    | RequestLyric(url: string)
    | Announce(file: string)
    | WriteAudio(file: string, source: Option<string>)
    | WriteLyricFile(file: string, text: string)
    | EmbedLyrics(file: string, text: string)
    | WriteTags(file: string, title: string, artist: string, album: string)
    | EmbedCover(file: string, imageUrl: Option<string>)
    | ReportRetry
    | ReportGaveUp

  /** Kinds of exception an attempt can raise: only `RequestException` is retried. */
  datatype ErrorKind = RequestError | OtherError

  /**
   * How an attempt ends, as the outside world decides it: it runs to `break`,
   * or the effect at position `step` of its plan raises.
   */
  datatype Outcome = Completed | RaisedAt(step: nat, error: ErrorKind)

  /** Everything one attempt depends on. */
  datatype Attempt = Attempt(responses: Responses, outcome: Outcome)

  function DetailUrl(base: string, songId: string): string {
    base + "/song/detail?ids=" + songId
  }

  function AudioUrl(base: string, songId: string, quality: Quality): string {
    base + "/song/url/v1?id=" + songId + "&level=" + Token(quality)
  }

  function LyricUrl(base: string, songId: string): string {
    base + "/lyric/new?id=" + songId
  }

  /** Position of each pipeline effect in the fixed order of an attempt. */
  function Rank(e: Effect): nat {
    match e
    case RequestDetail(_) => 0
    case RequestAudioUrl(_) => 1
    case RequestLyric(_) => 2
    case Announce(_) => 3
    case WriteAudio(_, _) => 4
    case WriteLyricFile(_, _) => 5
    case EmbedLyrics(_, _) => 6
    case WriteTags(_, _, _, _) => 7
    case EmbedCover(_, _) => 8
    case ReportRetry => 9
    case ReportGaveUp => 10
  }

  /**
   * The effects that go through `requests` and so can raise a
   * `RequestException`: the three API calls, the audio stream and the cover download.
   */
  predicate IsRequest(e: Effect) {
    e.RequestDetail? || e.RequestAudioUrl? || e.RequestLyric? || e.WriteAudio? || e.EmbedCover?
  }

  /** Index of the audio download in every plan. */
  const AudioStep: nat := 4

  /** How many lyric effects the lyric option adds. */
  function LyricCount(lyricOption: string): nat {
    if lyricOption == "1" then 2 else if lyricOption == "2" then 1 else 0
  }

  /** Index of the cover download, the last effect of every plan. */
  function CoverStep(lyricOption: string): nat {
    AudioStep + 2 + LyricCount(lyricOption)
  }

  /** The lyric handling selected by the lyric option. */
  function LyricSteps(lyricOption: string, file: string, lyrics: string): seq<Effect> {
    if lyricOption == "1" then [WriteLyricFile(LyricFilename(file), lyrics), EmbedLyrics(file, lyrics)]
    else if lyricOption == "2" then [EmbedLyrics(file, lyrics)]
    else []
  }

  /** The effects of an attempt that reaches `break`, in order. */
  function Plan(job: Job, r: Responses): seq<Effect> {
    var file := SongFilename(r.info.album, r.info.name, r.info.artist);
    [ RequestDetail(DetailUrl(job.base, job.songId)),
      RequestAudioUrl(AudioUrl(job.base, job.songId, job.quality)),
      RequestLyric(LyricUrl(job.base, job.songId)),
      Announce(file),
      WriteAudio(file, r.songUrl) ]
    + LyricSteps(job.lyricOption, file, r.lyrics)
    + [ WriteTags(file, r.info.name, r.info.artist, r.info.album),
        EmbedCover(file, r.info.picUrl) ]
  }

  /**
   * A URL that `requests.get` rejects before any I/O: None (JSON null) or a
   * string without a scheme separator, the empty string included, raises
   * `MissingSchema`, a `RequestException`.
   */
  predicate Unfetchable(url: Option<string>) {
    url.None? || ':' !in url.value
  }

  /**
   * The attempt's outcome once the unfetchable-URL rule is applied. The audio
   * step starts with `requests.get(song_url)`, so an unfetchable audio URL
   * raises a request error there unless an earlier step already raised. The
   * cover step opens the audio file and looks up `tags.add` before it
   * fetches the cover, so an error the outcome places at the cover step is
   * kept; an unfetchable cover URL only turns an attempt that got past the
   * cover into a request error at the cover.
   */
  function EffectiveOutcome(job: Job, a: Attempt): (r: Outcome)
    ensures a.outcome.RaisedAt? ==> r.RaisedAt? && r.step <= a.outcome.step
    ensures r != a.outcome ==> r.RaisedAt? && r.error == RequestError
                               && (r.step == AudioStep || r.step == CoverStep(job.lyricOption))
    ensures a.outcome.RaisedAt? && a.outcome.step <= CoverStep(job.lyricOption) && r != a.outcome ==>
      r.step == AudioStep && Unfetchable(a.responses.songUrl)
  {
    var o := a.outcome;
    if Unfetchable(a.responses.songUrl) && (o.Completed? || o.step >= AudioStep)
    then RaisedAt(AudioStep, RequestError)
    else if Unfetchable(a.responses.info.picUrl) && (o.Completed? || o.step > CoverStep(job.lyricOption))
    then RaisedAt(CoverStep(job.lyricOption), RequestError)
    else o
  }

  /**
   * An oracle the script could produce: the failing step exists in the plan,
   * and a request error comes from an effect that makes a request.
   */
  predicate ValidAttempt(job: Job, a: Attempt) {
    var plan := Plan(job, a.responses);
    match a.outcome
    case Completed => true
    case RaisedAt(k, e) => k < |plan| && (e == RequestError ==> IsRequest(plan[k]))
  }

  /** The effects one attempt emits: the whole plan, or the plan up to the effect that raised. */
  function AttemptTrace(job: Job, a: Attempt): seq<Effect> {
    var plan := Plan(job, a.responses);
    match EffectiveOutcome(job, a)
    case Completed => plan
    case RaisedAt(k, _) => if k < |plan| then plan[..k + 1] else plan
  }

  /** Whether an attempt ends in a `RequestException`, the only exception that is retried. */
  predicate Retried(job: Job, a: Attempt) {
    EffectiveOutcome(job, a).RaisedAt? && EffectiveOutcome(job, a).error == RequestError
  }

  // ---- Properties of one attempt ----

  /** The lyric handling emits one, two or no effects, as the option says. */
  lemma PlanLength(job: Job, r: Responses)
    ensures |Plan(job, r)| == 7 + LyricCount(job.lyricOption)
    ensures |Plan(job, r)| == CoverStep(job.lyricOption) + 1
  {
  }

  /**
   * Within an attempt the effects follow the fixed order: detail, URL and
   * lyric requests, the download notice, audio, lyric file, embedded lyrics,
   * tags, cover.
   */
  lemma PlanOrdered(job: Job, r: Responses)
    ensures forall i, j :: 0 <= i < j < |Plan(job, r)| ==> Rank(Plan(job, r)[i]) < Rank(Plan(job, r)[j])
  {
    var plan := Plan(job, r);
    forall i, j | 0 <= i < j < |plan| ensures Rank(plan[i]) < Rank(plan[j]) {
      PlanRanks(job, r, i);
      PlanRanks(job, r, j);
    }
  }

  /** Rank of the effect at each position: the plan is the ranks 0..8 with the skipped lyric steps left out. */
  lemma PlanRanks(job: Job, r: Responses, i: nat)
    requires i < |Plan(job, r)|
    ensures var o := job.lyricOption;
      var skipped := 2 - LyricCount(o);
      Rank(Plan(job, r)[i]) == if i <= AudioStep then i else if i < |Plan(job, r)| - 2 then i + (if o == "1" then 0 else 1) else i + skipped
  {
  }

  /**
   * Every plan opens with the three API requests, the download notice and the
   * audio download, and closes with the tags and the cover, the cover at CoverStep.
   */
  lemma PlanFrame(job: Job, r: Responses)
    ensures var plan := Plan(job, r);
      var file := SongFilename(r.info.album, r.info.name, r.info.artist);
      && |plan| >= 7
      && plan[..AudioStep + 1] == [ RequestDetail(DetailUrl(job.base, job.songId)),
                                    RequestAudioUrl(AudioUrl(job.base, job.songId, job.quality)),
                                    RequestLyric(LyricUrl(job.base, job.songId)),
                                    Announce(file),
                                    WriteAudio(file, r.songUrl) ]
      && plan[|plan| - 2..] == [ WriteTags(file, r.info.name, r.info.artist, r.info.album),
                                 EmbedCover(file, r.info.picUrl) ]
      && CoverStep(job.lyricOption) == |plan| - 1
  {
  }

  /**
   * Option "1" writes the `.lrc` file (named from the audio file) and embeds
   * the lyrics; "2" only embeds; any other value does neither.
   */
  lemma LyricOptionEffects(job: Job, r: Responses)
    ensures var plan := Plan(job, r);
      var file := SongFilename(r.info.album, r.info.name, r.info.artist);
      && (WriteLyricFile(LyricFilename(file), r.lyrics) in plan <==> job.lyricOption == "1")
      && (EmbedLyrics(file, r.lyrics) in plan <==> job.lyricOption in {"1", "2"})
      && (forall e :: e in plan && (e.WriteLyricFile? || e.EmbedLyrics?) ==> job.lyricOption in {"1", "2"})
  {
    var plan := Plan(job, r);
    forall e | e in plan && (e.WriteLyricFile? || e.EmbedLyrics?) ensures job.lyricOption in {"1", "2"} {
      var i :| 0 <= i < |plan| && plan[i] == e;
      PlanRanks(job, r, i);
    }
  }

  /**
   * The quality tier only changes the URL request: the audio file is `.mp3`
   * and named the same whatever tier was chosen.
   */
  lemma QualityOnlyInUrlRequest(job: Job, q: Quality, r: Responses)
    ensures var p, p' := Plan(job, r), Plan(job.(quality := q), r);
      |p| == |p'| && forall i :: 0 <= i < |p| && i != 1 ==> p[i] == p'[i]
  {
  }

  /** What an attempt emits is a non-empty prefix of its plan: the whole plan when it completed. */
  lemma AttemptTraceIsPrefix(job: Job, a: Attempt)
    ensures var t, plan := AttemptTrace(job, a), Plan(job, a.responses);
      && 1 <= |t| <= |plan| && t == plan[..|t|]
      && (EffectiveOutcome(job, a).Completed? ==> t == plan)
  {
  }

  /** A failed attempt stops at the effect that raised: it is the last effect emitted. */
  lemma FailedAttemptStops(job: Job, a: Attempt)
    requires ValidAttempt(job, a)
    requires EffectiveOutcome(job, a).RaisedAt?
    ensures var t := AttemptTrace(job, a);
      && |t| == EffectiveOutcome(job, a).step + 1
      && t == Plan(job, a.responses)[..|t|]
      && (Retried(job, a) ==> IsRequest(t[|t| - 1]))
  {
    PlanLength(job, a.responses);
  }

  /** An attempt with no usable audio URL never gets past the audio download and is retried. */
  lemma UnfetchableUrlRetried(job: Job, a: Attempt)
    requires ValidAttempt(job, a)
    requires Unfetchable(a.responses.songUrl)
    ensures EffectiveOutcome(job, a).RaisedAt? && EffectiveOutcome(job, a).step <= AudioStep
    ensures Retried(job, a) <==> a.outcome.Completed? || a.outcome.step >= AudioStep || a.outcome.error == RequestError
  {
  }

  /**
   * An attempt with no usable cover URL never gets past the cover download:
   * it is retried even when every other step succeeded. An error that is not
   * a request error at or before the cover step (opening the file for the
   * cover included) is not retried, unless the audio URL failed first.
   */
  lemma UnfetchableCoverRetried(job: Job, a: Attempt)
    requires ValidAttempt(job, a)
    requires Unfetchable(a.responses.info.picUrl)
    ensures EffectiveOutcome(job, a).RaisedAt? && EffectiveOutcome(job, a).step <= CoverStep(job.lyricOption)
    ensures a.outcome.Completed? ==> Retried(job, a)
    ensures Retried(job, a) <==>
      || a.outcome.Completed?
      || a.outcome.error == RequestError
      || (Unfetchable(a.responses.songUrl) && a.outcome.step >= AudioStep)
  {
    PlanLength(job, a.responses);
  }
}
