/** The configuration reader hook: it derives "configured" from the persisted
    flag by JavaScript truthiness, without parsing it. */
module UserConfig {
  import opened Wrappers
  import opened Storage
  import EmergencyContext

  /** `!!value` on the read, and `false` when the read raised. */
  function ReadsAsConfigured(r: Reply<Option<string>>): (configured: bool)
    ensures configured <==> r.Ok? && r.value.Some? && |r.value.value| > 0
  {
    match r
    case Raise(_) => false
    case Ok(v) => Truthy(v)
  }

  /** Whatever the provider persists, "true" or "false", reads back as
      configured. */
  lemma PersistedFlagReadsConfigured(b: bool)
    ensures ReadsAsConfigured(Ok(Some(EmergencyContext.FlagText(b))))
  {
  }

  class UserConfiguration {
    var isConfigured: Option<bool>
    var isLoading: bool

    /** Before the first check: configuration unknown, loading. */
    constructor ()
      ensures isConfigured == None && isLoading
    {
      isConfigured := None;
      isLoading := true;
    }

    /** Reads the persisted flag, publishes its truthiness (`false` if the
        read raised), ends loading on every path and writes nothing. */
    method CheckPreviousConfiguration(storage: AsyncStorage)
      modifies this
      ensures !isLoading
      ensures isConfigured == Some(ReadsAsConfigured(storage.state.Get(IsConfiguredKey)))
      ensures isConfigured == Some(true) <==> Present(storage.state.Get(IsConfiguredKey))
    {
      isLoading := true;
      var configuredValue := storage.state.Get(IsConfiguredKey);
      match configuredValue {
        case Ok(v) => isConfigured := Some(Truthy(v));
        case Raise(_) => isConfigured := Some(false);
      }
      isLoading := false;
    }
  }

  /** The provider's check followed by the reader's: once the check has
      persisted its flag, the reader reports the app configured even when
      the contact fields are incomplete and the flag written was "false". */
  method CheckThenRead(storage: AsyncStorage) returns (provider: EmergencyContext.EmergencyProvider, reader: UserConfiguration)
    requires EmergencyContext.CheckSucceeds(storage.state)
    modifies storage
    ensures storage.state.failing == old(storage.state.failing)
    ensures storage.state.items ==
      old(storage.state.items)[IsConfiguredKey := EmergencyContext.FlagText(EmergencyContext.StoredComplete(old(storage.state)))]
    ensures provider.isConfigured == Some(EmergencyContext.StoredComplete(old(storage.state)))
    ensures reader.isConfigured == Some(true)
    ensures !provider.isLoading && !reader.isLoading
  {
    provider := new EmergencyContext.EmergencyProvider();
    provider.CheckConfiguration(storage);
    reader := new UserConfiguration();
    reader.CheckPreviousConfiguration(storage);
    PersistedFlagReadsConfigured(EmergencyContext.StoredComplete(old(storage.state)));
  }
}
