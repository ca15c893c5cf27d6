/**
 * The configuration step: the script loads `config.json` into a dict, asks
 * for the API base URL and the cookie when they are not usable, writes the
 * answers back into the same dict and saves it.
 */
module Config {
  import opened Json

  /** A console prompt the step may show. */
  datatype Prompt = AskNcmapi | AskCookie

  /** The three arms of the `if / elif / else` that decides the base URL. */
  datatype NcmapiBranch = PromptNcmapi | ReportEmpty | ReuseNcmapi

  /**
   * The base-URL decision. The `elif` tests the truthiness of the literal
   * string "ncmapi" rather than of the stored value.
   */
  function ChooseNcmapi(entries: map<string, Json>): NcmapiBranch {
    if "ncmapi" !in entries || !Truthy(entries["ncmapi"]) then PromptNcmapi
    else if !Truthy(Str("ncmapi")) then ReportEmpty
    else ReuseNcmapi
  }

  /** The prompts the step shows for a loaded configuration, in order. */
  function Prompts(entries: map<string, Json>): (r: seq<Prompt>)
    ensures |r| <= 2
    ensures |r| == 2 ==> r == [AskNcmapi, AskCookie]
  {
    (if ChooseNcmapi(entries) == PromptNcmapi then [AskNcmapi] else [])
    + (if "cookie" !in entries then [AskCookie] else [])
  }

  /** The dict after the step, given the answers the user would type. */
  function Resolved(entries: map<string, Json>, ncmapiAnswer: string, cookieAnswer: string): map<string, Json> {
    var withUrl := if ChooseNcmapi(entries) == PromptNcmapi then entries["ncmapi" := Str(ncmapiAnswer)] else entries;
    if "cookie" !in withUrl then withUrl["cookie" := Str(cookieAnswer)] else withUrl
  }

  /** The `elif not 'ncmapi'` arm can never be taken. */
  lemma ReportEmptyUnreachable(entries: map<string, Json>)
    ensures ChooseNcmapi(entries) != ReportEmpty
  {
    assert Truthy(Str("ncmapi"));
  }

  /** The base URL is asked for exactly when the key is missing or its value is falsy. */
  lemma NcmapiPromptIff(entries: map<string, Json>)
    ensures AskNcmapi in Prompts(entries) <==> "ncmapi" !in entries || !Truthy(entries["ncmapi"])
  {
  }

  /** The cookie is asked for exactly when the key is missing: a stored empty cookie is reused. */
  lemma CookiePromptIff(entries: map<string, Json>)
    ensures AskCookie in Prompts(entries) <==> "cookie" !in entries
  {
  }

  /**
   * After the step both keys are present; an answer is stored exactly where a
   * prompt was shown; every other key keeps its loaded value.
   */
  lemma ResolvedContents(entries: map<string, Json>, ncmapiAnswer: string, cookieAnswer: string)
    ensures var r := Resolved(entries, ncmapiAnswer, cookieAnswer);
      && r.Keys == entries.Keys + {"ncmapi", "cookie"}
      && r["ncmapi"] == (if AskNcmapi in Prompts(entries) then Str(ncmapiAnswer) else entries["ncmapi"])
      && r["cookie"] == (if AskCookie in Prompts(entries) then Str(cookieAnswer) else entries["cookie"])
      && (forall k :: k in entries && k != "ncmapi" && k != "cookie" ==> r[k] == entries[k])
  {
    ReportEmptyUnreachable(entries);
  }

  /** The dict the script loaded, updated in place. */
  class Settings {
    var entries: map<string, Json>

    constructor (loaded: map<string, Json>)
      ensures entries == loaded
    {
      entries := loaded;
    }

    /**
     * Runs the prompting step with the answers the user would type. Returns
     * the base URL and cookie the rest of the script uses and the prompts shown.
     */
    method ResolveCredentials(ncmapiAnswer: string, cookieAnswer: string)
        returns (ncmapi: Json, cookie: Json, shown: seq<Prompt>)
      modifies this
      ensures entries == Resolved(old(entries), ncmapiAnswer, cookieAnswer)
      ensures shown == Prompts(old(entries))
      ensures ncmapi == entries["ncmapi"] && cookie == entries["cookie"]
    {
      shown := [];
      var branch := ChooseNcmapi(entries);
      if branch == PromptNcmapi {
        shown := shown + [AskNcmapi];
        ncmapi := Str(ncmapiAnswer);
        entries := entries["ncmapi" := ncmapi];
      } else if branch == ReportEmpty {
        // Unreachable (ReportEmptyUnreachable); the script only prints here
        // and leaves the base URL unbound.
        ncmapi := Null;
      } else {
        ncmapi := entries["ncmapi"];
      }
      if "cookie" !in entries {
        shown := shown + [AskCookie];
        cookie := Str(cookieAnswer);
        entries := entries["cookie" := cookie];
      } else {
        cookie := entries["cookie"];
      }
      ReportEmptyUnreachable(old(entries));
    }
  }
}
