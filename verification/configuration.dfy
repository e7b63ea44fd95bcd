/** The app's settings as the host supplies them, and the configuration the
    switches run with once `OnAttached` has defaulted and normalised the two
    level strings. */
module Configuration {
  import opened Wrappers
  import opened Text
  import opened Levels

  /** The settings as supplied; an unset level string is `None` (null). */
  datatype Settings = Settings(
    timeout: int,
    blownSwitchLogLevel: Option<string>,
    armedSwitchLogLevel: Option<string>,
    disableLogArmingOfSwitch: bool,
    repeat: bool)

  /** The configuration `Observe` and `Scan` read. `timeout` is in seconds. */
  datatype Config = Config(
    timeout: int,
    blownLevel: string,
    armedLevel: string,
    disableArmLogging: bool,
    repeat: bool)
  {
    /** Both level strings can be looked at by `LogMessage`. */
    predicate Ready()
    {
      |blownLevel| > 0 && |armedLevel| > 0
    }
  }

  const DefaultBlownLevel: string := "Error"
  const DefaultArmedLevel: string := "Information"

  /** `string.IsNullOrWhiteSpace`. */
  predicate IsNullOrWhiteSpace(raw: Option<string>)
  {
    raw.None? || IsBlank(raw.value)
  }

  /** A level string as `OnAttached` leaves it: non-empty, without white
      space at either end and without upper-case letters. */
  predicate IsNormalLevel(level: string)
  {
    |level| > 0 && IsTrimmed(level) && IsLower(level)
  }

  /** Substitutes `default` for an unset or blank level, then trims and
      lower-cases it. */
  function NormalizeLevel(raw: Option<string>, default: string): (r: string)
    requires !IsBlank(default)
    ensures IsNormalLevel(r)
    ensures IsNullOrWhiteSpace(raw) ==> SameIgnoringCase(r, Trim(default))
    ensures !IsNullOrWhiteSpace(raw) ==> SameIgnoringCase(r, Trim(raw.value))
  {
    var level := if IsNullOrWhiteSpace(raw) then default else raw.value;
    LowerProperties(Trim(level));
    ToLowerInvariant(Trim(level))
  }

  /** `OnAttached`: the configuration the switches run with. */
  function Attach(s: Settings): (c: Config)
    ensures c.Ready()
    ensures IsNormalLevel(c.blownLevel) && IsNormalLevel(c.armedLevel)
    ensures IsNullOrWhiteSpace(s.blownSwitchLogLevel) ==> c.blownLevel == "error"
    ensures IsNullOrWhiteSpace(s.armedSwitchLogLevel) ==> c.armedLevel == "information"
    ensures IsNullOrWhiteSpace(s.blownSwitchLogLevel) ==> SeverityOf(c.blownLevel) == Some(Error)
    ensures IsNullOrWhiteSpace(s.armedSwitchLogLevel) ==> SeverityOf(c.armedLevel) == Some(Information)
    ensures !IsNullOrWhiteSpace(s.blownSwitchLogLevel) ==>
      SameIgnoringCase(c.blownLevel, Trim(s.blownSwitchLogLevel.value))
    ensures !IsNullOrWhiteSpace(s.armedSwitchLogLevel) ==>
      SameIgnoringCase(c.armedLevel, Trim(s.armedSwitchLogLevel.value))
    ensures c.timeout == s.timeout && c.repeat == s.repeat
    ensures c.disableArmLogging == s.disableLogArmingOfSwitch
  {
    DefaultsAreTrimmed();
    DefaultApplies(s.blownSwitchLogLevel, DefaultBlownLevel, "error");
    DefaultApplies(s.armedSwitchLogLevel, DefaultArmedLevel, "information");
    Config(
      s.timeout,
      NormalizeLevel(s.blownSwitchLogLevel, DefaultBlownLevel),
      NormalizeLevel(s.armedSwitchLogLevel, DefaultArmedLevel),
      s.disableLogArmingOfSwitch,
      s.repeat)
  }

  /** The two defaults have no surrounding white space; lower-cased they
      read "error" and "information", which select Error and Information. */
  lemma DefaultsAreTrimmed()
    ensures |DefaultBlownLevel| > 0 && IsTrimmed(DefaultBlownLevel) && ToLowerInvariant(DefaultBlownLevel) == "error"
    ensures |DefaultArmedLevel| > 0 && IsTrimmed(DefaultArmedLevel) && ToLowerInvariant(DefaultArmedLevel) == "information"
    ensures SeverityOf("error") == Some(Error) && SeverityOf("information") == Some(Information)
  {
  }

  /** An unset or blank level is replaced by the default, which normalises
      to `lower` when that is the default with its letters lower-cased. */
  lemma DefaultApplies(raw: Option<string>, default: string, lower: string)
    requires |default| > 0 && IsTrimmed(default) && ToLowerInvariant(default) == lower
    ensures !IsBlank(default)
    ensures IsNullOrWhiteSpace(raw) ==> NormalizeLevel(raw, default) == lower
  {
    TrimOfTrimmed(default);
  }

  /** Normalising is idempotent: feeding a normalised level back through
      `OnAttached` returns it unchanged. */
  lemma NormalizeIdempotent(raw: Option<string>, default: string)
    requires !IsBlank(default)
    ensures NormalizeLevel(Some(NormalizeLevel(raw, default)), default) == NormalizeLevel(raw, default)
  {
    var r := NormalizeLevel(raw, default);
    TrimmedIsNotBlank(r);
    TrimmedLowerIsFixed(r);
  }

  /** Level matching is case-insensitive and ignores surrounding white
      space: the severity a setting selects is decided by its first
      significant character alone, lower-cased. */
  lemma SelectedByFirstSignificantChar(level: string, i: nat, default: string)
    requires !IsBlank(default)
    requires i < |level| && !IsWhiteSpace(level[i])
    requires forall j :: 0 <= j < i ==> IsWhiteSpace(level[j])
    ensures SeverityOf(NormalizeLevel(Some(level), default)) == SeverityOf([LowerChar(level[i])])
  {
    assert !IsBlank(level) by {
      assert !IsWhiteSpace(level[i]);
    }
    FirstOfLowerTrim(level, i);
  }

  /** A trimmed, lower-cased level starts with the lower-cased first significant character. */
  lemma FirstOfLowerTrim(level: string, i: nat)
    requires i < |level| && !IsWhiteSpace(level[i])
    requires forall j :: 0 <= j < i ==> IsWhiteSpace(level[j])
    ensures SeverityOf(ToLowerInvariant(Trim(level))) == SeverityOf([LowerChar(level[i])])
  {
    TrimStartsAtFirstSignificant(level, i);
  }

  /** Every name the help text lists, whatever white space precedes and
      follows it, selects the severity it names. */
  lemma HelpTextNamesSelectTheirSeverity(sev: Severity, pre: string, post: string, default: string)
    requires !IsBlank(default)
    requires IsBlank(pre) && IsBlank(post)
    ensures SeverityOf(NormalizeLevel(Some(pre + Name(sev) + post), default)) == Some(sev)
  {
    var level := pre + Name(sev) + post;
    assert level[|pre|] == Name(sev)[0];
    SelectedByFirstSignificantChar(level, |pre|, default);
  }

}
