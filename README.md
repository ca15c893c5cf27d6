# NCM downloader: a verified model of `main.py`

`main.py` is a console script that downloads songs from a NetEase Cloud Music
API server (an "NCMAPI" instance). It works in this order:

1. It loads `config.json`. It asks for the API base URL when that is missing
   or empty, and for the cookie only when it is missing.
2. It asks for a download type (song, playlist or album), the identifier, a
   quality tier and a lyric option.
3. For each song id it runs `download_song`. Each attempt requests the song's
   details, its audio URL at the chosen tier and its lyrics. It then prints
   a download notice and streams the audio to
   `"{album} - {song} - {artist}.mp3"`. Next it writes the `.lrc`
   file and embeds the lyrics, or only embeds them, as the lyric option says.
   Last it writes the title, artist and album tags and embeds the cover.
4. `download_song` tries up to three times. After a `requests` exception it
   prints a retry notice and, unless that was the third attempt, tries again. It stops at the first attempt that
   reaches `break`. Any other exception escapes `download_song` and ends the
   script. The give-up notice is printed only when all three attempts raised
   a `requests` exception.

The model treats the console, the network and the disk as inputs and
effects:

- Every console answer is a parameter.
- Every attempt of `download_song` is decided by an `Attempt` oracle: what
  the catalog answered, and whether the attempt ran to `break` or which step
  raised, with which kind of exception.
- Each request, file write and tag write becomes an `Effect` in a trace.

The modules, one per file:

- `Json`: Python values, truthiness and `str()`.
- `Menu`: the download-type menu and the quality table.
- `Config`: the configuration dict, updated in place by a class.
- `Naming`: the file names, with `str.replace`.
- `Pipeline`: one attempt.
- `Download`: the retry loop, as a method.
- `Collection`: expanding a playlist or album, the sequential loop over its
  ids, and the top-level dispatch.
- `Wrappers`: `Option` and `Result`.

Properties of the script that the model makes explicit:

- An unusable URL is retried, not skipped. `requests.get` raises
  `MissingSchema`, a `RequestException`, for `None` or for any string without
  a `:` (the empty string included).
  - An audio URL like that fails the attempt at the audio download, which
    starts with the request.
  - A cover URL like that fails the attempt when the cover is fetched, once
    the audio file has been opened for it.
  - Such an attempt is retried, and after three such attempts the song is
    given up (`Pipeline.UnfetchableUrlRetried`,
    `Pipeline.UnfetchableCoverRetried`, `Download.MissingUrlGivesUp`,
    `Download.MissingCoverGivesUp`). A missing cover therefore never counts
    as downloaded, although the audio file and its tags were written.
  - An error opening the audio file for the cover is not a
    `RequestException`: it ends the script, even when the cover URL is also
    unusable (`Download.CoverSetupErrorCrashes`).
- Within an attempt the lyric file and the embedded lyrics come before the
  title, artist and album tags, and the cover comes last (`Pipeline.PlanOrdered`).
- The lyric file name comes from replacing every `.mp3` in the audio file
  name, so a field that contains `.mp3` is rewritten as well, and the lyric
  file then does not share the audio file's stem
  (`Naming.LyricFilenameRewritesFields`).
- An exception that is not a `RequestException` ends the whole script. This
  covers a `KeyError` on an unexpected response shape and a tagging error.
  The remaining ids of a playlist or album are never tried
  (`Collection.DownloadAll`).
- The script has no concurrency, no byte-length check of the audio file, no
  removal of partial files, no failure log, no FLAC handling and no artist
  catalog, and the model has none of them either.

## Model

| member | source | states |
|---|---|---|
| Json.Truthy | main.py:31 | Python truthiness: false exactly for None, False, 0 and the empty string, list and dict |
| Json.IntToString | main.py:180 | `str()` of an int is non-empty and starts with a minus sign exactly when the int is negative |
| Json.IntToStringRoundTrip | main.py:180 | `str()` of an integer id is read back by `int` to the same integer |
| Json.IntToStringInjective | main.py:180 | distinct integer ids give distinct id strings, and equal strings mean equal ids |
| Json.PyStr | main.py:180 | `str(x)` of an integer is its decimal text and of a string is the string itself; only lists and dicts are outside the model |
| Menu.SelectDownloadType | main.py:51-64 | "1", "2" and "3" select song, playlist and album, each if and only if; every other answer leads to the exit branch |
| Menu.SelectQuality | main.py:91 | `quality_levels.get(choice, 'standard')`: a key of the table selects the tier whose menu key it is, any other answer gives standard |
| Menu.TokenInjective | main.py:78-87 | the eight `level` tokens are pairwise distinct, so the tier sent is the tier chosen |
| Menu.SelectQualityInMenuOrder | main.py:68-91 | keys "1".."8" select the tiers in menu order, from standard to jymaster |
| Menu.SelectQualityOfMenuKey | main.py:78-91 | every tier is selected by its own menu key |
| Menu.SelectQualityIff | main.py:78-91 | a choice selects tier q if and only if it is q's key, or q is standard and the choice is not a key (the `.get` default) |
| Menu.SelectQualityFallback | main.py:91 | any answer outside the table, including empty or padded ones, falls back to standard |
| Config.ChooseNcmapi | main.py:31-37 | the three arms of the base-URL `if`/`elif`/`else`, the `elif` testing the literal string; its properties are the two lemmas below |
| Config.Prompts | main.py:31-44 | at most two prompts, and when both are shown the base URL is asked for before the cookie |
| Config.Resolved | main.py:31-44 | the dict after prompting; ResolvedContents states its keys and values |
| Config.ReportEmptyUnreachable | main.py:34-35 | the `elif not 'ncmapi'` branch can never be taken, because the literal string is truthy |
| Config.NcmapiPromptIff | main.py:31-37 | the base URL is asked for if and only if the key is missing or its value is falsy |
| Config.CookiePromptIff | main.py:40-44 | the cookie is asked for if and only if the key is missing; a stored empty cookie is reused |
| Config.ResolvedContents | main.py:31-44 | afterwards both keys are present, an answer is stored exactly where its prompt was shown, and every other key keeps its loaded value |
| Config.Settings.constructor | main.py:23-28 | the settings start as the loaded dict |
| Config.Settings.ResolveCredentials | main.py:31-44 | updates the dict in place to the resolved dict, returns the base URL and cookie that are now stored, and shows the prompts in order |
| Naming.SongFilename | main.py:127 | the audio name starts with the album, ends with `.mp3`, and is 10 characters longer than its three fields |
| Naming.ReplaceAll | main.py:138 | `str.replace`, left to right over non-overlapping occurrences; the result holds no character that is in neither the input nor the replacement |
| Naming.LyricFilename | main.py:138 | `song_filename.replace('.mp3', '.lrc')` has the length of the audio name |
| Naming.ReplaceAllLength | main.py:138 | replacing with a same-length string (`.mp3` with `.lrc`) keeps the name's length |
| Naming.ReplaceAllNoOccurrence | main.py:138 | a name without `.mp3` is left unchanged by the replace |
| Naming.ReplaceAllConcat | main.py:138 | the replace distributes over a concatenation when no occurrence can straddle the boundary |
| Naming.ReplaceAllFreePrefix | main.py:138 | a prefix in which the pattern cannot start is copied unchanged |
| Naming.ReplaceAllWhole | main.py:138 | the pattern itself is replaced by the replacement |
| Naming.ReplaceAllJoined | main.py:127-138 | the replace over `a + sep + b + sep + c + pat` acts on each field separately and turns the final `pat` into the replacement |
| Naming.LyricFilenameOfSongFilename | main.py:127-138 | the lyric name is each field with its own `.mp3` substrings rewritten to `.lrc`, joined by " - ", then `.lrc` |
| Naming.LyricFilenameSwapsSuffix | main.py:127-138 | when no field contains `.mp3`, the lyric name is the audio name with its suffix swapped |
| Naming.LyricFilenameRewritesFields | main.py:127-138 | an album field ending in `.mp3` is rewritten too, so the lyric name then differs from the audio stem plus `.lrc` |
| Pipeline.Plan | main.py:107-166 | the effects of an attempt that reaches `break`, in order; PlanLength, PlanRanks, PlanOrdered and PlanFrame state its shape |
| Pipeline.EffectiveOutcome | main.py:119-166 | an attempt raises no later than its input outcome says; where it differs, the difference is a request error at the audio download or the cover download; an outcome raised at or before the cover step is changed only by an unusable audio URL |
| Pipeline.ValidAttempt | main.py:105-169 | the outcomes the script can produce: the failing step exists, and a request error is raised by an effect that makes a request |
| Pipeline.AttemptTrace | main.py:105-167 | the effects one attempt emits; AttemptTraceIsPrefix and FailedAttemptStops state what they are |
| Pipeline.Retried | main.py:169-170 | an attempt is retried exactly when it ends in a `RequestException` |
| Pipeline.PlanLength | main.py:107-166 | a full attempt has 7 effects, plus 2 for lyric option "1", 1 for "2" and none otherwise; the cover is its last effect |
| Pipeline.PlanOrdered | main.py:107-166 | within an attempt the effects come in a fixed order: detail, URL and lyric requests, then the download notice, audio, lyric file, embedded lyrics, tags, cover |
| Pipeline.PlanRanks | main.py:107-166 | the effect at each position has the rank of that fixed order, with the skipped lyric steps left out |
| Pipeline.PlanFrame | main.py:107-166 | every attempt starts with the three API requests (URLs as formatted), the download notice and the audio write to the formatted name, and ends with the tags and the cover |
| Pipeline.LyricOptionEffects | main.py:136-146 | the `.lrc` file is written if and only if the option is "1"; lyrics are embedded if and only if it is "1" or "2"; no lyric effect otherwise |
| Pipeline.QualityOnlyInUrlRequest | main.py:117-127 | changing the tier changes only the URL request; the file name stays the same |
| Pipeline.AttemptTraceIsPrefix | main.py:105-167 | an attempt emits a non-empty prefix of its plan, and the whole plan when it reaches `break` |
| Pipeline.FailedAttemptStops | main.py:105-170 | a failed attempt ends at the effect that raised, and a retried failure was raised by a request |
| Pipeline.UnfetchableUrlRetried | main.py:119-130 | with a null audio URL or one without a scheme, the attempt never gets past the audio download; it is retried if and only if it reached that step or raised a request error before it |
| Pipeline.UnfetchableCoverRetried | main.py:114-169 | with a null cover URL or one without a scheme, the attempt never gets past the cover download; it is retried if and only if every other step succeeded, or it raised a request error, or the audio URL is also unusable and it reached the audio download |
| Download.RetryFrom | main.py:104-172 | the loop's decisions, attempt by attempt; RetryFromFacts states them |
| Download.SongRunOf | main.py:103-172 | the whole behaviour of one call, the specification of DownloadSong; SongRunFacts and DownloadSongTrace state it |
| Download.RetryFromFacts | main.py:104-172 | from any attempt on, the loop stops at the first attempt not retried, and gives up only when every remaining attempt was retried |
| Download.SongRunFacts | main.py:103-172 | a call makes 1 to 3 attempts; every attempt but the last was retried; it gives up if and only if all three were retried; otherwise the last attempt's outcome decides |
| Download.DownloadSong | main.py:103-172 | the loop's result and trace equal the specification of the call, together with the four promises of SongRunFacts |
| Download.DownloadSongOutcome | main.py:105-172 | when attempt k is the first that is not retried, the call makes k+1 attempts and attempt k decides the result |
| Download.AttemptTraceCounts | main.py:107-109 | every attempt requests the song details exactly once and never prints the give-up notice |
| Download.AttemptsTraceCounts | main.py:105-170 | a run of attempts requests the details once per attempt |
| Download.DownloadSongTrace | main.py:103-172 | a call requests the details once per attempt, at most three times; the give-up notice appears if and only if all three attempts were retried |
| Download.MissingUrlGivesUp | main.py:119-172 | when no attempt gets a usable audio URL and every earlier failure is a request error, the call gives up after three attempts |
| Download.MissingCoverGivesUp | main.py:114-172 | when no attempt gets a usable cover URL and every failure up to the cover step is a request error, the call gives up after three attempts |
| Download.CoverSetupErrorCrashes | main.py:155-169 | an error that is not a request error, raised while opening the audio file for the cover, ends the call after the first attempt |
| Collection.CollectionUrl | main.py:178-184 | the playlist or album URL starts with the base URL and ends with the collection id |
| Collection.ExpandCollection | main.py:180-186 | `[str(song['id']) for song in res['songs']]`: it succeeds only for a dict with an iterable `songs` entry, with one id per element |
| Collection.Iterate | main.py:180 | `for song in songs` visits a list's items in order; only a list, an empty string or an empty dict gets past this step |
| Collection.SongIdOf | main.py:180 | `str(song['id'])` succeeds if and only if the element is a dict with an `id` whose `str` is modelled, and gives that string |
| Collection.SongIds | main.py:180 | the comprehension succeeds if and only if every element does; it gives one id per element, in response order; otherwise it raises the first failing element's error |
| Collection.ExpandCollectionIds | main.py:180 | for a response whose songs carry integer ids, the id list has one entry per song, in order, each the decimal text of that id and read back by `int` |
| Collection.ExpandCollectionDistinct | main.py:180 | songs with different integer ids get different id strings |
| Collection.CalledInOrderExtend | main.py:181-182 | one more loop iteration keeps the k-th result the call of `download_song` for the k-th id |
| Collection.DownloadAll | main.py:181-188 | the k-th call downloads the k-th id with its own attempts; every call but the last ran to an end; the loop stops early only after an escaped exception |
| Collection.RunDownloads | main.py:51-190 | the script exits if and only if the choice is invalid; a song id is downloaded once with the selected tier and the script finishes unless that call crashed; a playlist or album requests its URL and aborts if the response cannot be expanded; otherwise it downloads the ids in order, stops early only after a crash, and finishes if and only if every id was downloaded without a crash |

## Left out

- HTTP: requests, headers, timeouts and the cookie header are not modelled. Each attempt's responses and exceptions are inputs (`Pipeline.Attempt`).
- File contents: the streamed chunk writes, the progress bar and the `content-length` arithmetic are left out. The audio write is one `WriteAudio` effect.
- Tagging: the ID3 and EasyID3 tag internals are left out. Embedding lyrics, writing tags and embedding the cover are one effect each.
- Config file I/O: loading and saving `config.json`, and the banner and console prompts, are not modelled. Loaded values and answers are parameters.
- Exit: `exit()` is the `InvalidChoice` end of `Collection.RunDownloads`. The final "press enter" prompt is the `Finished` end.
- Json.PyStr: `str()` of a list or dict id is not modelled, because its text depends on Python's rendering of nested values. The expansion then reports `UnmodelledId`.
- Json: there is no float value. An id such as `1.0` would be turned into `"1.0"` by the script and downloaded, but the model cannot represent it.
- Collection.RunDownloads: a list or dict id (`UnmodelledId`) ends the run as `Aborted` with no downloads. The script would instead go on with the `str()` text of that id, so the model claims an abort the script never makes.
- Pipeline.Unfetchable: only URLs without a `:` are known to raise. Other URLs `requests` rejects, such as another scheme or a missing host, are left to the attempt's oracle.
- Collection.Iterate: iterating a non-empty string or dict is reported as the `TypeError` of its first element, without modelling the elements.
- The base URL in the f-strings is modelled as text. A configured non-string value (a number, say) is not rendered through `str()`.
- Download.DownloadSong: it needs at least three attempt oracles even when fewer are used, because the oracle must cover every attempt the loop might make.
