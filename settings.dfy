/** The settings context (src/context/settings.tsx): the settings record and the list of
    ignored signature-request hashes, replaced in place by the provider's setters.
    Persistence, the biometric platform calls and error tracking are not modelled. */
module Settings {
  import opened Wrappers

  /** `SettingsState`: the persisted settings plus the `initialized` flag. */
  datatype SettingsState = SettingsState(
    agreedToTermsAt: Option<string>,
    biometricLock: bool,
    initialized: bool,
    multisignature: bool,
    testnet: bool,
    hideMemos: bool)

  /** `Partial<SettingsData>`: a field is `Some` exactly when the update object has it.
      An update may carry `agreedToTermsAt: undefined`, hence the nested option. */
  datatype SettingsUpdate = SettingsUpdate(
    agreedToTermsAt: Option<Option<string>>,
    biometricLock: Option<bool>,
    multisignature: Option<bool>,
    testnet: Option<bool>,
    hideMemos: Option<bool>)

  const InitialSettings := SettingsState(None, false, false, false, false, false)

  const DefaultMultiSignatureServiceUrl := "https://multisig.satoshipay.io/"

  /** `{ ...settings, ...update }`: every field the update has is taken from it, every
      other field is kept. */
  function MergeSettings(s: SettingsState, u: SettingsUpdate): (r: SettingsState)
    ensures u.agreedToTermsAt.Some? ==> r.agreedToTermsAt == u.agreedToTermsAt.value
    ensures u.agreedToTermsAt.None? ==> r.agreedToTermsAt == s.agreedToTermsAt
    ensures u.biometricLock.Some? ==> r.biometricLock == u.biometricLock.value
    ensures u.biometricLock.None? ==> r.biometricLock == s.biometricLock
    ensures u.multisignature.Some? ==> r.multisignature == u.multisignature.value
    ensures u.multisignature.None? ==> r.multisignature == s.multisignature
    ensures u.testnet.Some? ==> r.testnet == u.testnet.value
    ensures u.testnet.None? ==> r.testnet == s.testnet
    ensures u.hideMemos.Some? ==> r.hideMemos == u.hideMemos.value
    ensures u.hideMemos.None? ==> r.hideMemos == s.hideMemos
    ensures r.initialized == s.initialized
  {
    SettingsState(
      u.agreedToTermsAt.GetOr(s.agreedToTermsAt),
      u.biometricLock.GetOr(s.biometricLock),
      s.initialized,
      u.multisignature.GetOr(s.multisignature),
      u.testnet.GetOr(s.testnet),
      u.hideMemos.GetOr(s.hideMemos))
  }

  /** Applying the same update twice is applying it once. */
  lemma MergeSettingsIdempotent(s: SettingsState, u: SettingsUpdate)
    ensures MergeSettings(MergeSettings(s, u), u) == MergeSettings(s, u)
  {
  }

  /** The flags the provider can toggle. */
  datatype Flag = BiometricLock | MultiSignature | Testnet | HideMemos

  function FlagValue(s: SettingsState, f: Flag): bool {
    match f
    case BiometricLock => s.biometricLock
    case MultiSignature => s.multisignature
    case Testnet => s.testnet
    case HideMemos => s.hideMemos
  }

  /** The update a toggle sends: its own flag, negated, and nothing else. */
  function ToggleUpdate(s: SettingsState, f: Flag): (u: SettingsUpdate)
    ensures u.agreedToTermsAt.None?
    ensures u.biometricLock == (if f == BiometricLock then Some(!s.biometricLock) else None)
    ensures u.multisignature == (if f == MultiSignature then Some(!s.multisignature) else None)
    ensures u.testnet == (if f == Testnet then Some(!s.testnet) else None)
    ensures u.hideMemos == (if f == HideMemos then Some(!s.hideMemos) else None)
  {
    var none := SettingsUpdate(None, None, None, None, None);
    match f
    case BiometricLock => none.(biometricLock := Some(!s.biometricLock))
    case MultiSignature => none.(multisignature := Some(!s.multisignature))
    case Testnet => none.(testnet := Some(!s.testnet))
    case HideMemos => none.(hideMemos := Some(!s.hideMemos))
  }

  /** A toggle flips its own flag and leaves every other field as it was. */
  lemma ToggleFlipsOnlyItsFlag(s: SettingsState, f: Flag, g: Flag)
    ensures FlagValue(MergeSettings(s, ToggleUpdate(s, f)), g) == (if f == g then !FlagValue(s, g) else FlagValue(s, g))
    ensures MergeSettings(s, ToggleUpdate(s, f)).agreedToTermsAt == s.agreedToTermsAt
    ensures MergeSettings(s, ToggleUpdate(s, f)).initialized == s.initialized
  {
  }

  /** Toggling the same flag twice restores the settings. */
  lemma ToggleTwiceRestores(s: SettingsState, f: Flag)
    ensures var t := MergeSettings(s, ToggleUpdate(s, f)); MergeSettings(t, ToggleUpdate(t, f)) == s
  {
  }

  ghost predicate NoDuplicates(s: seq<string>) {
    forall i, j :: 0 <= i < j < |s| ==> s[i] != s[j]
  }

  /** The list after ignoring `h`: unchanged when `h` is already there, otherwise `h`
      appended at the end. */
  function AppendIfAbsent(hashes: seq<string>, h: string): (r: seq<string>)
    ensures hashes <= r
    ensures forall x :: x in r <==> x in hashes || x == h
    ensures |r| == if h in hashes then |hashes| else |hashes| + 1
  {
    if h in hashes then hashes else hashes + [h]
  }

  /** Ignoring a request twice is ignoring it once. */
  lemma AppendIfAbsentIdempotent(hashes: seq<string>, h: string)
    ensures AppendIfAbsent(AppendIfAbsent(hashes, h), h) == AppendIfAbsent(hashes, h)
  {
  }

  /** Ignoring keeps the list free of duplicates. */
  lemma AppendIfAbsentKeepsDistinct(hashes: seq<string>, h: string)
    requires NoDuplicates(hashes)
    ensures NoDuplicates(AppendIfAbsent(hashes, h))
  {
    var r := AppendIfAbsent(hashes, h);
    if h !in hashes {
      forall i, j | 0 <= i < j < |r|
        ensures r[i] != r[j]
      {
        if j == |hashes| {
          assert r[i] == hashes[i];
        }
      }
    }
  }

  /** `process.env.MULTISIG_SERVICE || "https://multisig.satoshipay.io/"`. */
  function MultiSignatureServiceUrl(env: Option<string>): (url: string)
    ensures env.Some? && env.value != "" ==> url == env.value
    ensures env.None? || env.value == "" ==> url == DefaultMultiSignatureServiceUrl
    ensures url != ""
  {
    if env.Some? && env.value != "" then env.value else DefaultMultiSignatureServiceUrl
  }

  /** What the provider exposes (the biometric availability is left out). */
  datatype ContextValue = ContextValue(
    agreedToTermsAt: Option<string>,
    biometricLock: bool,
    ignoredSignatureRequests: seq<string>,
    initialized: bool,
    multiSignature: bool,
    multiSignatureServiceUrl: string,
    showTestnet: bool,
    hideMemos: bool)

  /** The provider's state and its setters. */
  class SettingsProvider {
    var settings: SettingsState
    var ignoredSignatureRequests: seq<string>

    constructor ()
      ensures settings == InitialSettings && ignoredSignatureRequests == []
      ensures !settings.initialized && settings.agreedToTermsAt.None?
      ensures forall f :: !FlagValue(settings, f)
    {
      settings := InitialSettings;
      ignoredSignatureRequests := [];
    }

    /** The initial load. On success the loaded fields are laid over the settings of the
        first render, which are the initial ones, `initialized` is set and the ignored list
        is replaced; on failure nothing changes. */
    method Load(outcome: Option<(seq<string>, SettingsUpdate)>)
      modifies this
      ensures outcome.None? ==> settings == old(settings) && ignoredSignatureRequests == old(ignoredSignatureRequests)
      ensures outcome.Some? ==> settings == MergeSettings(InitialSettings, outcome.value.1).(initialized := true)
      ensures outcome.Some? ==> settings.initialized && ignoredSignatureRequests == outcome.value.0
    {
      if outcome.Some? {
        var (hashes, loaded) := outcome.value;
        ignoredSignatureRequests := hashes;
        settings := MergeSettings(InitialSettings, loaded).(initialized := true);
      }
    }

    method IgnoreSignatureRequest(h: string)
      modifies this`ignoredSignatureRequests
      ensures ignoredSignatureRequests == AppendIfAbsent(old(ignoredSignatureRequests), h)
      ensures NoDuplicates(old(ignoredSignatureRequests)) ==> NoDuplicates(ignoredSignatureRequests)
    {
      if NoDuplicates(ignoredSignatureRequests) {
        AppendIfAbsentKeepsDistinct(ignoredSignatureRequests, h);
      }
      if h !in ignoredSignatureRequests {
        ignoredSignatureRequests := ignoredSignatureRequests + [h];
      }
    }

    method UpdateSettings(u: SettingsUpdate)
      modifies this`settings
      ensures settings == MergeSettings(old(settings), u)
    {
      settings := MergeSettings(settings, u);
    }

    /** Records the time the terms were accepted (the clock reading is a parameter). */
    method ConfirmToC(now: string)
      modifies this`settings
      ensures settings == old(settings).(agreedToTermsAt := Some(now))
    {
      UpdateSettings(SettingsUpdate(Some(Some(now)), None, None, None, None));
    }

    method ToggleMultiSignature()
      modifies this`settings
      ensures settings == old(settings).(multisignature := !old(settings.multisignature))
    {
      UpdateSettings(ToggleUpdate(settings, MultiSignature));
    }

    method ToggleTestnet()
      modifies this`settings
      ensures settings == old(settings).(testnet := !old(settings.testnet))
    {
      UpdateSettings(ToggleUpdate(settings, Testnet));
    }

    method ToggleHideMemos()
      modifies this`settings
      ensures settings == old(settings).(hideMemos := !old(settings.hideMemos))
    {
      UpdateSettings(ToggleUpdate(settings, HideMemos));
    }

    /** Flips the biometric lock once the authentication check has passed; a rejected
        check changes nothing. */
    method ToggleBiometricLock(authPassed: bool)
      modifies this`settings
      ensures authPassed ==> settings == old(settings).(biometricLock := !old(settings.biometricLock))
      ensures !authPassed ==> settings == old(settings)
    {
      if authPassed {
        UpdateSettings(ToggleUpdate(settings, BiometricLock));
      }
    }

    /** The context value the provider renders. */
    function Context(multisigServiceEnv: Option<string>): (c: ContextValue)
      reads this
      ensures c.multiSignature == settings.multisignature && c.showTestnet == settings.testnet
      ensures c.hideMemos == settings.hideMemos && c.biometricLock == settings.biometricLock
      ensures c.agreedToTermsAt == settings.agreedToTermsAt && c.initialized == settings.initialized
      ensures c.ignoredSignatureRequests == ignoredSignatureRequests
      ensures c.multiSignatureServiceUrl == MultiSignatureServiceUrl(multisigServiceEnv)
    {
      ContextValue(
        settings.agreedToTermsAt, settings.biometricLock, ignoredSignatureRequests,
        settings.initialized, settings.multisignature,
        MultiSignatureServiceUrl(multisigServiceEnv), settings.testnet, settings.hideMemos)
    }
  }
}
