/**
 * The two menu decisions the script takes from console input: which kind of
 * download to run, and which quality tier to request from the catalog.
 */
module Menu {
  import opened Wrappers
  import opened Json

  datatype DownloadType = Song | Playlist | Album

  /**
   * Answer to "[1] song [2] playlist [3] album"; any other answer makes the
   * script exit before it asks anything else (None).
   */
  function SelectDownloadType(choice: string): (r: Option<DownloadType>)
    ensures r == Some(Song) <==> choice == "1"
    ensures r == Some(Playlist) <==> choice == "2"
    ensures r == Some(Album) <==> choice == "3"
    ensures r.None? <==> choice !in {"1", "2", "3"}
  {
    if choice == "1" then Some(Song)
    else if choice == "2" then Some(Playlist)
    else if choice == "3" then Some(Album)
    else None
  }

  /** The eight tiers the catalog's URL endpoint accepts, lowest fidelity first. */
  datatype Quality = Standard | Higher | Exhigh | Lossless | Hires | Jyeffect | Sky | Jymaster

  /** The `level` token sent to the catalog for a tier. */
  function Token(q: Quality): string {
    match q
    case Standard => "standard"
    case Higher => "higher"
    case Exhigh => "exhigh"
    case Lossless => "lossless"
    case Hires => "hires"
    case Jyeffect => "jyeffect"
    case Sky => "sky"
    case Jymaster => "jymaster"
  }

  /** The menu order: key "k" selects Tiers[k - 1]. */
  const Tiers: seq<Quality> := [Standard, Higher, Exhigh, Lossless, Hires, Jyeffect, Sky, Jymaster]

  /** The menu key of each tier. */
  function MenuKey(q: Quality): string {
    match q
    case Standard => "1"
    case Higher => "2"
    case Exhigh => "3"
    case Lossless => "4"
    case Hires => "5"
    case Jyeffect => "6"
    case Sky => "7"
    case Jymaster => "8"
  }

  /** The script's `quality_levels` table. */
  const QualityLevels: map<string, Quality> := map[
    "1" := Standard, "2" := Higher, "3" := Exhigh, "4" := Lossless,
    "5" := Hires, "6" := Jyeffect, "7" := Sky, "8" := Jymaster]

  /** `quality_levels.get(choice, 'standard')`. */
  function SelectQuality(choice: string): (q: Quality)
    ensures choice in QualityLevels ==> MenuKey(q) == choice
    ensures choice !in QualityLevels ==> q == Standard
  {
    if choice in QualityLevels then QualityLevels[choice] else Standard
  }

  /** Tokens are pairwise distinct, so the tier sent is the tier chosen. */
  lemma TokenInjective(p: Quality, q: Quality)
    ensures Token(p) == Token(q) <==> p == q
  {
  }

  /** Keys "1".."8" select the tiers in menu order. */
  lemma SelectQualityInMenuOrder(k: nat)
    requires 1 <= k <= 8
    ensures SelectQuality([DigitChar(k)]) == Tiers[k - 1]
  {
  }

  /** Every tier's own key selects it. */
  lemma SelectQualityOfMenuKey(q: Quality)
    ensures SelectQuality(MenuKey(q)) == q
  {
  }

  /**
   * The full characterisation: a choice selects tier q exactly when it is q's
   * key, or q is `standard` and the choice is not a key at all.
   */
  lemma SelectQualityIff(choice: string, q: Quality)
    ensures SelectQuality(choice) == q <==>
      (choice == MenuKey(q) || (q == Standard && choice !in QualityLevels))
  {
    if choice in QualityLevels {
      assert choice == MenuKey(QualityLevels[choice]);
    }
  }

  /** Any answer outside the table, empty or padded ones included, falls back to `standard`. */
  lemma SelectQualityFallback(choice: string)
    requires choice !in {"1", "2", "3", "4", "5", "6", "7", "8"}
    ensures SelectQuality(choice) == Standard
  {
  }
}
