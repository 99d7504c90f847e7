/** The date helpers of `src/utils/date.ts`: locale and user-format
    fallbacks, the bucketing of relative dates, date ranges and safe
    parsing.

    dayjs is a parameter: a date is a `Moment` that is either invalid or
    a valid instant, and `format(instant, locale, pattern)` stands for
    `date.locale(locale).format(pattern)`. The whole-day difference
    between now and the date is a parameter of `FormatRelativeDate`, and
    the translation function is a parameter wherever it is used. */
module DateFormat {
  import opened Wrappers
  import opened Strings

  datatype Moment = Invalid | Valid(instant: int)

  type Formatter = (int, string, string) -> string

  /** The keys of `LOCALE_MAP`. */
  const LOCALES: set<string> := {"en", "vi", "es", "fr", "zh", "ja", "ko", "ms"}

  /** The keys of `USER_FORMATS`. */
  const USER_FORMATS: set<string> := {"DD/MM/YYYY", "MM/DD/YYYY", "YYYY/MM/DD"}
  const DEFAULT_USER_FORMAT := "DD/MM/YYYY"

  const SHORT := "MM/DD/YYYY"
  const MEDIUM := "MMMM D, YYYY"
  const LONG := "dddd, MMMM D, YYYY"
  const TIME := "h:mm A"
  const DATETIME := "MMMM D, YYYY, h:mm A"
  const ISO := "YYYY-MM-DD"
  const RELATIVE_SHORT := "MMM D"
  const WEEKDAY := "dddd"

  const YESTERDAY_KEY := "history:yesterday"
  const RANGE_SEPARATOR_KEY := "date:range_separator"
  const DEFAULT_RANGE_SEPARATOR := " - "

  /** `a || b` on strings: the empty string is falsy. */
  function OrElse(a: Option<string>, b: string): (r: string)
    ensures a.Some? && a.value != [] ==> r == a.value
    ensures a.None? || a.value == [] ==> r == b
  {
    if a.Some? && a.value != [] then a.value else b
  }

  /** `getLocale(lang)`: the given language, else i18n's current one, else
      "en"; a language without an entry in the locale table becomes "en". */
  function GetLocale(lang: Option<string>, i18nLanguage: Option<string>): (r: string)
    ensures r in LOCALES
    ensures OrElse(lang, OrElse(i18nLanguage, "en")) in LOCALES ==> r == OrElse(lang, OrElse(i18nLanguage, "en"))
    ensures OrElse(lang, OrElse(i18nLanguage, "en")) !in LOCALES ==> r == "en"
  {
    var language := OrElse(lang, OrElse(i18nLanguage, "en"));
    if language in LOCALES then language else "en"
  }

  /** `getUserDateFnsFormat(userFormat)`: a known user format is kept, and
      anything else (including no format) gives "DD/MM/YYYY". */
  function GetUserDateFnsFormat(userFormat: Option<string>): (r: string)
    ensures r in USER_FORMATS
    ensures userFormat.Some? && userFormat.value in USER_FORMATS ==> r == userFormat.value
    ensures userFormat.None? || userFormat.value !in USER_FORMATS ==> r == DEFAULT_USER_FORMAT
  {
    var userFormatString := OrElse(userFormat, DEFAULT_USER_FORMAT);
    if userFormatString in USER_FORMATS then userFormatString else DEFAULT_USER_FORMAT
  }

  /** `formatDate(date, dateFormat, lang)`: an invalid date gives "", and
      the pattern defaults to MEDIUM. */
  function FormatDate(date: Moment, dateFormat: Option<string>, lang: Option<string>,
                      i18nLanguage: Option<string>, format: Formatter): (r: string)
    ensures date.Invalid? ==> r == []
    ensures date.Valid? ==> r == format(date.instant, GetLocale(lang, i18nLanguage), OrElse(dateFormat, MEDIUM))
  {
    if date.Invalid? then []
    else
      var formatString := OrElse(dateFormat, MEDIUM);
      format(date.instant, GetLocale(lang, i18nLanguage), formatString)
  }

  /** `formatDateWithUserPreference(date, userDateFormat, lang)`. */
  function FormatDateWithUserPreference(date: Moment, userDateFormat: Option<string>, lang: Option<string>,
                                        i18nLanguage: Option<string>, format: Formatter): (r: string)
    ensures date.Invalid? ==> r == []
    ensures date.Valid? ==> r == FormatDate(date, Some(GetUserDateFnsFormat(userDateFormat)), lang, i18nLanguage, format)
  {
    if date.Invalid? then []
    else format(date.instant, GetLocale(lang, i18nLanguage), GetUserDateFnsFormat(userDateFormat))
  }

  /** The five ways a relative date is shown. */
  datatype Bucket = Today | Yesterday | ThisWeek | ThisYear | Older

  /** The bucket of a whole-day difference, in the order the source tests them. */
  function BucketOf(diffInDays: int): (b: Bucket)
    ensures b == Today <==> diffInDays == 0
    ensures b == Yesterday <==> diffInDays == 1
    ensures b == ThisWeek <==> diffInDays < 7 && diffInDays != 0 && diffInDays != 1
    ensures b == ThisYear <==> 7 <= diffInDays < 365
    ensures b == Older <==> 365 <= diffInDays
  {
    if diffInDays == 0 then Today
    else if diffInDays == 1 then Yesterday
    else if diffInDays < 7 then ThisWeek
    else if diffInDays < 365 then ThisYear
    else Older
  }

  function Rank(b: Bucket): nat {
    match b
    case Today => 0
    case Yesterday => 1
    case ThisWeek => 2
    case ThisYear => 3
    case Older => 4
  }

  /** From yesterday on, an older date never lands in a more recent bucket. */
  lemma BucketMonotone(d1: int, d2: int)
    requires 1 <= d1 <= d2
    ensures Rank(BucketOf(d1)) <= Rank(BucketOf(d2))
  {
  }

  /** `formatRelativeDate(date, t, lang)`: the time for today, the
      translation of "history:yesterday" for yesterday, the weekday for
      the rest of the week (and for dates in the future), the short date
      within the year, and the medium date beyond it. */
  function FormatRelativeDate(date: Moment, diffInDays: int, translate: string -> string, lang: Option<string>,
                              i18nLanguage: Option<string>, format: Formatter): (r: string)
    ensures date.Invalid? ==> r == []
    ensures date.Valid? && BucketOf(diffInDays) == Yesterday ==> r == translate(YESTERDAY_KEY)
    ensures date.Valid? && BucketOf(diffInDays) == Today ==> r == FormatDate(date, Some(TIME), lang, i18nLanguage, format)
    ensures date.Valid? && BucketOf(diffInDays) == ThisWeek ==> r == FormatDate(date, Some(WEEKDAY), lang, i18nLanguage, format)
    ensures date.Valid? && BucketOf(diffInDays) == ThisYear ==> r == FormatDate(date, Some(RELATIVE_SHORT), lang, i18nLanguage, format)
    ensures date.Valid? && BucketOf(diffInDays) == Older ==> r == FormatDate(date, Some(MEDIUM), lang, i18nLanguage, format)
  {
    if date.Invalid? then []
    else if diffInDays == 0 then FormatDate(date, Some(TIME), lang, i18nLanguage, format)
    else if diffInDays == 1 then translate(YESTERDAY_KEY)
    else if diffInDays < 7 then FormatDate(date, Some(WEEKDAY), lang, i18nLanguage, format)
    else if diffInDays < 365 then FormatDate(date, Some(RELATIVE_SHORT), lang, i18nLanguage, format)
    else FormatDate(date, Some(MEDIUM), lang, i18nLanguage, format)
  }

  /** `parseDateSafely(s)`: null for the empty string and for anything
      dayjs cannot read. */
  function ParseDateSafely(s: string, parse: string -> Moment): (r: Option<int>)
    ensures s == [] ==> r.None?
    ensures s != [] ==> (r.Some? <==> parse(s).Valid?)
    ensures r.Some? ==> parse(s) == Valid(r.value)
  {
    if s == [] then None
    else
      var date := parse(s);
      if date.Valid? then Some(date.instant) else None
  }

  /** `formatDateRange(start, end, t, lang)`: "" when either end is
      invalid, otherwise both ends in the medium format around the
      translated separator, which falls back to " - " when the
      translation is empty. */
  function FormatDateRange(start: Moment, end: Moment, translate: string -> string, lang: Option<string>,
                           i18nLanguage: Option<string>, format: Formatter): (r: string)
    ensures start.Invalid? || end.Invalid? ==> r == []
    ensures start.Valid? && end.Valid? ==>
      r == FormatDate(start, Some(MEDIUM), lang, i18nLanguage, format)
           + (if translate(RANGE_SEPARATOR_KEY) == [] then DEFAULT_RANGE_SEPARATOR else translate(RANGE_SEPARATOR_KEY))
           + FormatDate(end, Some(MEDIUM), lang, i18nLanguage, format)
  {
    if start.Invalid? || end.Invalid? then []
    else
      var startFormatted := FormatDate(start, Some(MEDIUM), lang, i18nLanguage, format);
      var endFormatted := FormatDate(end, Some(MEDIUM), lang, i18nLanguage, format);
      var separator := OrElse(Some(translate(RANGE_SEPARATOR_KEY)), DEFAULT_RANGE_SEPARATOR);
      startFormatted + separator + endFormatted
  }

  /** The range always starts with the formatted start date and ends with
      the formatted end date, and with an untranslated separator it is
      exactly the two around " - ". */
  lemma RangeShape(start: int, end: int, translate: string -> string, lang: Option<string>,
                   i18nLanguage: Option<string>, format: Formatter)
    ensures var r := FormatDateRange(Valid(start), Valid(end), translate, lang, i18nLanguage, format);
            var s := format(start, GetLocale(lang, i18nLanguage), MEDIUM);
            var e := format(end, GetLocale(lang, i18nLanguage), MEDIUM);
            && StartsWith(r, s)
            && |e| <= |r| && r[|r| - |e|..] == e
            && (translate(RANGE_SEPARATOR_KEY) == [] ==> r == s + " - " + e)
  {
    var r := FormatDateRange(Valid(start), Valid(end), translate, lang, i18nLanguage, format);
    var s := format(start, GetLocale(lang, i18nLanguage), MEDIUM);
    var e := format(end, GetLocale(lang, i18nLanguage), MEDIUM);
    var sep := OrElse(Some(translate(RANGE_SEPARATOR_KEY)), DEFAULT_RANGE_SEPARATOR);
    assert r == s + sep + e;
    assert r[..|s|] == s;
    assert r[|r| - |e|..] == e;
  }
}
