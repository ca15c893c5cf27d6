/**
 * `download_song`: up to three attempts of the pipeline. The first attempt
 * that reaches `break` ends the loop; a `RequestException` prints a retry
 * notice and starts the next attempt; any other exception leaves the function
 * (and the script); when every attempt raised a `RequestException`, the
 * `for ... else` prints the give-up notice.
 */
module Download {
  import opened Pipeline

  const MaxAttempts: nat := 3

  /** How a call of `download_song` ends. Crashed: a non-request exception escaped. */
  datatype SongResult = Downloaded | GaveUp | Crashed

  /** How many attempts a call started and how it ended. */
  datatype Verdict = Verdict(attemptsMade: nat, result: SongResult)

  /** What one call of `download_song` did: its verdict and the effects it emitted. */
  datatype SongRun = SongRun(attemptsMade: nat, result: SongResult, trace: seq<Effect>)

  /** How a settled (not retried) attempt ends the call. */
  function SettledResult(job: Job, a: Attempt): SongResult {
    if EffectiveOutcome(job, a).Completed? then Downloaded else Crashed
  }

  /** The retry loop's decisions from attempt i on, as a function of the attempts' outcomes. */
  function RetryFrom(job: Job, attempts: seq<Attempt>, i: nat): Verdict
    requires i <= MaxAttempts <= |attempts|
    decreases MaxAttempts - i
  {
    if i == MaxAttempts then Verdict(MaxAttempts, GaveUp)
    else if Retried(job, attempts[i]) then RetryFrom(job, attempts, i + 1)
    else Verdict(i + 1, SettledResult(job, attempts[i]))
  }

  /** The effects of the attempts in `tried`, each retried one followed by its retry notice. */
  function AttemptsTrace(job: Job, tried: seq<Attempt>): seq<Effect> {
    if tried == [] then []
    else
      var last := tried[|tried| - 1];
      AttemptsTrace(job, tried[..|tried| - 1]) + AttemptTrace(job, last) + (if Retried(job, last) then [ReportRetry] else [])
  }

  /** Extending the attempts tried by one appends that attempt's effects and its notice. */
  lemma AttemptsTraceExtend(job: Job, attempts: seq<Attempt>, i: nat)
    requires i < |attempts|
    ensures AttemptsTrace(job, attempts[..i + 1])
      == AttemptsTrace(job, attempts[..i]) + AttemptTrace(job, attempts[i])
         + (if Retried(job, attempts[i]) then [ReportRetry] else [])
  {
    assert attempts[..i + 1][..i] == attempts[..i];
  }

  /** The whole behaviour of one call of `download_song`. */
  function SongRunOf(job: Job, attempts: seq<Attempt>): SongRun
    requires |attempts| >= MaxAttempts
  {
    var v := RetryFrom(job, attempts, 0);
    SongRun(v.attemptsMade, v.result,
            AttemptsTrace(job, attempts[..v.attemptsMade]) + (if v.result == GaveUp then [ReportGaveUp] else []))
  }

  /**
   * The loop's decisions from attempt i on: it stops at the first attempt
   * that is not retried, and gives up only when every remaining attempt was retried.
   */
  lemma {:induction false} RetryFromFacts(job: Job, attempts: seq<Attempt>, i: nat)
    requires i <= MaxAttempts <= |attempts|
    ensures var r := RetryFrom(job, attempts, i);
      && (if i < MaxAttempts then i < r.attemptsMade else r.attemptsMade == MaxAttempts)
      && r.attemptsMade <= MaxAttempts
      && (forall j :: i <= j < r.attemptsMade - 1 ==> Retried(job, attempts[j]))
      && (r.result == GaveUp <==> forall j :: i <= j < MaxAttempts ==> Retried(job, attempts[j]))
      && (r.result == GaveUp ==> r.attemptsMade == MaxAttempts)
      && (r.result != GaveUp ==> !Retried(job, attempts[r.attemptsMade - 1])
                                 && r.result == SettledResult(job, attempts[r.attemptsMade - 1]))
    decreases MaxAttempts - i
  {
    if i < MaxAttempts && Retried(job, attempts[i]) {
      RetryFromFacts(job, attempts, i + 1);
    }
  }

  /** The retry loop's promises, stated on the whole call. */
  lemma SongRunFacts(job: Job, attempts: seq<Attempt>)
    requires |attempts| >= MaxAttempts
    ensures var run := SongRunOf(job, attempts);
      && 1 <= run.attemptsMade <= MaxAttempts
      && (forall j :: 0 <= j < run.attemptsMade - 1 ==> Retried(job, attempts[j]))
      && (run.result == GaveUp <==> forall j :: 0 <= j < MaxAttempts ==> Retried(job, attempts[j]))
      && (run.result != GaveUp ==> run.result == SettledResult(job, attempts[run.attemptsMade - 1]))
  {
    RetryFromFacts(job, attempts, 0);
  }

  /**
   * `download_song` with the attempts' outcomes supplied by the outside
   * world (`attempts[k]` decides the k-th attempt).
   */
  method DownloadSong(job: Job, attempts: seq<Attempt>) returns (run: SongRun)
    requires |attempts| >= MaxAttempts
    ensures run == SongRunOf(job, attempts)
    ensures 1 <= run.attemptsMade <= MaxAttempts
    ensures forall j :: 0 <= j < run.attemptsMade - 1 ==> Retried(job, attempts[j])
    ensures run.result == GaveUp <==> forall j :: 0 <= j < MaxAttempts ==> Retried(job, attempts[j])
    ensures run.result != GaveUp ==> run.result == SettledResult(job, attempts[run.attemptsMade - 1])
  {
    var trace: seq<Effect> := [];
    var i := 0;
    while i < MaxAttempts
      invariant i <= MaxAttempts
      invariant RetryFrom(job, attempts, 0) == RetryFrom(job, attempts, i)
      invariant trace == AttemptsTrace(job, attempts[..i])
    {
      var a := attempts[i];
      var t := AttemptTrace(job, a);
      AttemptsTraceExtend(job, attempts, i);
      if !Retried(job, a) {
        // `break` on success; any other exception escapes the function.
        run := SongRun(i + 1, SettledResult(job, a), trace + t);
        assert run == SongRunOf(job, attempts);
        SongRunFacts(job, attempts);
        return;
      }
      trace := trace + t + [ReportRetry];
      i := i + 1;
    }
    // The `else` of `for ... else`: reached only when no attempt broke out.
    run := SongRun(MaxAttempts, GaveUp, trace + [ReportGaveUp]);
    assert run == SongRunOf(job, attempts);
    SongRunFacts(job, attempts);
  }

  /**
   * The outcome of a call in terms of its attempts alone: the first attempt
   * that is not retried decides it; with none, the call gives up after three.
   */
  lemma DownloadSongOutcome(job: Job, attempts: seq<Attempt>, k: nat)
    requires |attempts| >= MaxAttempts
    requires k < MaxAttempts && !Retried(job, attempts[k])
    requires forall j :: 0 <= j < k ==> Retried(job, attempts[j])
    ensures RetryFrom(job, attempts, 0) == Verdict(k + 1, SettledResult(job, attempts[k]))
  {
    RetryFromFacts(job, attempts, 0);
  }

  /** Number of detail requests in a trace: each attempt starts with exactly one. */
  function DetailRequests(trace: seq<Effect>): nat {
    if trace == [] then 0
    else DetailRequests(trace[..|trace| - 1]) + (if trace[|trace| - 1].RequestDetail? then 1 else 0)
  }

  lemma {:induction false} DetailRequestsConcat(s: seq<Effect>, t: seq<Effect>)
    ensures DetailRequests(s + t) == DetailRequests(s) + DetailRequests(t)
    decreases |t|
  {
    if t == [] {
      assert s + t == s;
    } else {
      assert (s + t)[..|s + t| - 1] == s + t[..|t| - 1];
      DetailRequestsConcat(s, t[..|t| - 1]);
    }
  }

  /** A trace whose only detail request is its first effect counts one. */
  lemma {:induction false} DetailRequestsLeading(t: seq<Effect>)
    requires |t| >= 1 && t[0].RequestDetail?
    requires forall i :: 1 <= i < |t| ==> !t[i].RequestDetail?
    ensures DetailRequests(t) == 1
    decreases |t|
  {
    if |t| > 1 {
      DetailRequestsLeading(t[..|t| - 1]);
    } else {
      assert t[..0] == [];
    }
  }

  /** Every attempt's trace holds one detail request and no give-up notice. */
  lemma AttemptTraceCounts(job: Job, a: Attempt)
    ensures DetailRequests(AttemptTrace(job, a)) == 1
    ensures ReportGaveUp !in AttemptTrace(job, a)
  {
    var t := AttemptTrace(job, a);
    AttemptTraceIsPrefix(job, a);
    forall i | 0 <= i < |t| ensures Rank(t[i]) <= 8 && (t[i].RequestDetail? <==> i == 0) {
      PlanRanks(job, a.responses, i);
    }
    DetailRequestsLeading(t);
  }

  /**
   * Over the attempts tried: one detail request per attempt, and no give-up notice.
   */
  lemma {:induction false} AttemptsTraceCounts(job: Job, tried: seq<Attempt>)
    ensures DetailRequests(AttemptsTrace(job, tried)) == |tried|
    ensures ReportGaveUp !in AttemptsTrace(job, tried)
    decreases |tried|
  {
    if tried != [] {
      var last := tried[|tried| - 1];
      var notice: seq<Effect> := if Retried(job, last) then [ReportRetry] else [];
      AttemptsTraceCounts(job, tried[..|tried| - 1]);
      AttemptTraceCounts(job, last);
      assert DetailRequests(notice) == 0 by {
        assert notice != [] ==> notice[..0] == [];
      }
      DetailRequestsConcat(AttemptsTrace(job, tried[..|tried| - 1]), AttemptTrace(job, last));
      DetailRequestsConcat(AttemptsTrace(job, tried[..|tried| - 1]) + AttemptTrace(job, last), notice);
    }
  }

  /**
   * A call issues one detail request per attempt, so at most three per song,
   * and prints the give-up notice exactly when all three attempts raised a
   * request error.
   */
  lemma DownloadSongTrace(job: Job, attempts: seq<Attempt>)
    requires |attempts| >= MaxAttempts
    ensures var r := SongRunOf(job, attempts);
      && DetailRequests(r.trace) == r.attemptsMade <= MaxAttempts
      && (ReportGaveUp in r.trace <==> forall j :: 0 <= j < MaxAttempts ==> Retried(job, attempts[j]))
  {
    var v := RetryFrom(job, attempts, 0);
    RetryFromFacts(job, attempts, 0);
    var tried := attempts[..v.attemptsMade];
    var tail: seq<Effect> := if v.result == GaveUp then [ReportGaveUp] else [];
    AttemptsTraceCounts(job, tried);
    DetailRequestsConcat(AttemptsTrace(job, tried), tail);
    assert DetailRequests(tail) == 0 by {
      assert tail != [] ==> tail[..0] == [];
    }
  }

  /**
   * A song whose audio URL is unusable in every response is not skipped:
   * each attempt raises `MissingSchema` and the call gives up after three attempts.
   */
  lemma MissingUrlGivesUp(job: Job, attempts: seq<Attempt>)
    requires |attempts| >= MaxAttempts
    requires forall j :: 0 <= j < MaxAttempts ==>
      Unfetchable(attempts[j].responses.songUrl) &&
      (attempts[j].outcome.RaisedAt? && attempts[j].outcome.step < AudioStep ==> attempts[j].outcome.error == RequestError)
    ensures RetryFrom(job, attempts, 0) == Verdict(MaxAttempts, GaveUp)
  {
    RetryFromFacts(job, attempts, 0);
  }

  /**
   * A song whose cover URL is unusable in every response is never reported
   * downloaded, though its audio and tags are written: each attempt raises at
   * the cover and the call gives up after three attempts.
   */
  lemma MissingCoverGivesUp(job: Job, attempts: seq<Attempt>)
    requires |attempts| >= MaxAttempts
    requires forall j :: 0 <= j < MaxAttempts ==>
      Unfetchable(attempts[j].responses.info.picUrl) &&
      (attempts[j].outcome.RaisedAt? && attempts[j].outcome.step <= CoverStep(job.lyricOption) ==>
         attempts[j].outcome.error == RequestError)
    ensures RetryFrom(job, attempts, 0) == Verdict(MaxAttempts, GaveUp)
  {
    RetryFromFacts(job, attempts, 0);
  }

  /**
   * Opening the audio file for the cover (before the cover URL is fetched)
   * can raise an error that is not a `RequestException`: it ends the call on
   * the first attempt, whatever the cover URL is.
   */
  lemma CoverSetupErrorCrashes(job: Job, attempts: seq<Attempt>)
    requires |attempts| >= MaxAttempts
    requires attempts[0].outcome == RaisedAt(CoverStep(job.lyricOption), OtherError)
    requires !Unfetchable(attempts[0].responses.songUrl)
    ensures RetryFrom(job, attempts, 0) == Verdict(1, Crashed)
  {
  }
}
