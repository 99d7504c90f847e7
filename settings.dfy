/** The settings store of `src/stores/settings.ts`: a premium flag that is
    kept in memory only, and the persisted preferences (tablet layout,
    language, date format and text size). */
module Settings {
  import Typography

  type TextSizePreference = Typography.TextSizePreference

  /** `ValidDateFormat`: the date format can only be one of these three. */
  datatype DateFormat = DayMonthYear | MonthDayYear | YearMonthDay

  function DateFormatText(f: DateFormat): (r: string)
    ensures |r| == 10
  {
    match f
    case DayMonthYear => "DD/MM/YYYY"
    case MonthDayYear => "MM/DD/YYYY"
    case YearMonthDay => "YYYY/MM/DD"
  }

  /** Distinct formats have distinct texts. */
  lemma DateFormatTextInjective(a: DateFormat, b: DateFormat)
    ensures DateFormatText(a) == DateFormatText(b) <==> a == b
  {
  }

  /** What `partialize` hands to the persistence layer. */
  datatype Persisted = Persisted(isTablet: bool, language: string, dateFormat: DateFormat,
                                 textSizePreference: TextSizePreference)

  datatype State = State(premium: bool, persisted: Persisted)

  /** `defaultZustandSettings` with `defaultPersistentSettings`. */
  function Defaults(): (s: State)
    ensures !s.premium && !s.persisted.isTablet && s.persisted.language == "en"
    ensures DateFormatText(s.persisted.dateFormat) == "DD/MM/YYYY"
    ensures s.persisted.textSizePreference == Typography.Default
  {
    State(false, Persisted(false, "en", DayMonthYear, Typography.Default))
  }

  /** `partialize`: everything but the premium flag. */
  function Partialize(s: State): (p: Persisted)
    ensures p.isTablet == s.persisted.isTablet && p.language == s.persisted.language
    ensures p.dateFormat == s.persisted.dateFormat && p.textSizePreference == s.persisted.textSizePreference
  {
    s.persisted
  }

  /** Rehydration with the persistence layer's default shallow merge: the
      persisted fields are restored and the premium flag is the current one. */
  function Rehydrate(current: State, p: Persisted): (r: State)
    ensures r.premium == current.premium && Partialize(r) == p
  {
    State(current.premium, p)
  }

  /** The premium flag never reaches the persisted settings. */
  lemma PremiumNeverPersisted(s: State, premium: bool)
    ensures Partialize(s.(premium := premium)) == Partialize(s)
    ensures Rehydrate(Defaults(), Partialize(s)).premium == false
  {
  }

  class Store {
    var premium: bool
    var isTablet: bool
    var language: string
    var dateFormat: DateFormat
    var textSizePreference: TextSizePreference

    function Snapshot(): State
      reads this
    {
      State(premium, Persisted(isTablet, language, dateFormat, textSizePreference))
    }

    constructor ()
      ensures Snapshot() == Defaults()
    {
      premium := false;
      isTablet := false;
      language := "en";
      dateFormat := DayMonthYear;
      textSizePreference := Typography.Default;
    }

    /** Each setter changes its own field and nothing else. */
    method SetIsPremium(isPremium: bool)
      modifies this`premium
      ensures premium == isPremium && Partialize(Snapshot()) == old(Partialize(Snapshot()))
    {
      premium := isPremium;
    }

    method SetIsTablet(tablet: bool)
      modifies this`isTablet
      ensures Snapshot() == old(Snapshot()).(persisted := old(Snapshot()).persisted.(isTablet := tablet))
    {
      isTablet := tablet;
    }

    method SetLanguage(lang: string)
      modifies this`language
      ensures Snapshot() == old(Snapshot()).(persisted := old(Snapshot()).persisted.(language := lang))
    {
      language := lang;
    }

    method SetDateFormat(format: DateFormat)
      modifies this`dateFormat
      ensures Snapshot() == old(Snapshot()).(persisted := old(Snapshot()).persisted.(dateFormat := format))
    {
      dateFormat := format;
    }

    method SetTextSizePreference(preference: TextSizePreference)
      modifies this`textSizePreference
      ensures Snapshot() == old(Snapshot()).(persisted := old(Snapshot()).persisted.(textSizePreference := preference))
    {
      textSizePreference := preference;
    }

    /** Restores persisted preferences over the current premium flag. */
    method Restore(p: Persisted)
      modifies this
      ensures Snapshot() == Rehydrate(old(Snapshot()), p)
    {
      isTablet := p.isTablet;
      language := p.language;
      dateFormat := p.dateFormat;
      textSizePreference := p.textSizePreference;
    }
  }
}
