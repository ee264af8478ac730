/**
 * The two fixed lookup tables of the CLI: weekday names (Monday = 0) and the
 * weather-condition glyphs, plus the icon-code slicing that feeds the latter.
 */
module Tables {
  import opened Wrappers

  /** Why a report could not be produced: the exceptions the formatter lets escape. */
  datatype ReportError =
    | UnknownIcon(code: string)     // `ICONS[icon]` raised KeyError
    | BadTimestamp(text: string)    // `datetime.strptime` raised ValueError

  /** `WEEK_DAYS`, with the source's spelling 'Wenesday' kept as it is. */
  const WeekDays: map<int, string> := map[
    0 := "Monday",
    1 := "Tuesday",
    2 := "Wenesday",
    3 := "Thursday",
    4 := "Friday",
    5 := "Saturday",
    6 := "Sunday"
  ]

  /** The two-character condition codes that `ICONS` knows. */
  const IconCodes: set<string> := {"01", "02", "03", "04", "09", "10", "11", "13", "50"}

  /** `ICONS`: every glyph is a space followed by one emoji (with its variation selector where the source has one). */
  const Icons: map<string, string> := map[
    "01" := " \U{2600}\U{FE0F}",
    "02" := " \U{1F324}",
    "03" := " \U{1F325}",
    "04" := " \U{2601}\U{FE0F}",
    "09" := " \U{1F327}",
    "10" := " \U{1F326}",
    "11" := " \U{26C8}",
    "13" := " \U{1F328}",
    "50" := " \U{1F32B}"
  ]

  /** The weekday table is defined exactly on 0..6, from Monday to Sunday. */
  lemma WeekDaysTotal()
    ensures forall w :: w in WeekDays <==> 0 <= w < 7
    ensures WeekDays[0] == "Monday" && WeekDays[6] == "Sunday"
    ensures forall w :: w in WeekDays ==> WeekDays[w] != ""
  {
  }

  /** `WEEK_DAYS[day_nr]` for a weekday number that `datetime.weekday()` can return. */
  function WeekdayName(w: int): (name: string)
    requires 0 <= w < 7
    ensures name == WeekDays[w] && |name| >= 6
  {
    WeekDays[w]
  }

  /**
   * `icon[:-1]`: the upstream icon identifier without its trailing day/night
   * character. Python's slice of the empty string is the empty string.
   */
  function IconKey(icon: string): (key: string)
    ensures |icon| == 0 ==> key == ""
    ensures |icon| > 0 ==> key + [icon[|icon| - 1]] == icon
  {
    if |icon| == 0 then "" else icon[..|icon| - 1]
  }

  /** `ICONS[icon[:-1]]`: the glyph, or the KeyError naming the sliced code. */
  function IconGlyph(icon: string): (r: Result<string, ReportError>)
    ensures r.Ok? <==> IconKey(icon) in IconCodes
    ensures r.Err? ==> r.error == UnknownIcon(IconKey(icon))
    ensures r.Ok? ==> |r.value| >= 2 && r.value[0] == ' '
  {
    var key := IconKey(icon);
    if key in Icons then Ok(Icons[key]) else Err(UnknownIcon(key))
  }

  /** The day/night variant never matters: only the first two characters of a three-character icon are looked up. */
  lemma {:induction false} IconVariantIrrelevant(code: string, v1: char, v2: char)
    ensures IconGlyph(code + [v1]) == IconGlyph(code + [v2])
  {
    assert IconKey(code + [v1]) == code == IconKey(code + [v2]);
  }

  /** Worked cases: "01d" (clear sky, day) yields the sun; "99d" fails instead of yielding an empty glyph. */
  lemma IconExamples()
    ensures IconGlyph("01d") == Ok(" \U{2600}\U{FE0F}")
    ensures IconGlyph("01n") == IconGlyph("01d")
    ensures IconGlyph("99d") == Err(UnknownIcon("99"))
    ensures IconGlyph("") == Err(UnknownIcon(""))
  {
    assert IconKey("01d") == "01";
    assert IconKey("01n") == "01";
    assert IconKey("99d") == "99";
  }
}
