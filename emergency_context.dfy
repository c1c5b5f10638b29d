/** The emergency context provider: it decides whether the three contact
    fields are configured, publishes that with a loading flag, and persists
    it as the text "true" or "false". */
module EmergencyContext {
  import opened Wrappers
  import opened Storage

  /** Message raised when the context is used outside its provider. */
  const OutsideProvider := "useEmergencyContext must be used within EmergencyProvider"

  /** All three contact fields hold a non-empty value. */
  predicate ConfigurationComplete(userEmail: Option<string>, contactEmail: Option<string>, contactPhone: Option<string>)
  {
    Truthy(userEmail) && Truthy(contactEmail) && Truthy(contactPhone)
  }

  /** A boolean's `toString()`. */
  function FlagText(b: bool): (s: string)
    ensures s == "true" || s == "false"
    ensures s == "true" <==> b
  {
    if b then "true" else "false"
  }

  /** The value the contact key holds, or `null`. */
  function Stored(st: Snapshot, key: string): Option<string>
  {
    if key in st.items then Some(st.items[key]) else None
  }

  /** Completeness of what the store holds. */
  predicate StoredComplete(st: Snapshot)
  {
    ConfigurationComplete(Stored(st, UserEmailKey), Stored(st, ContactEmailKey), Stored(st, ContactPhoneKey))
  }

  /** The store is complete exactly when each of the three contact keys holds
      a non-empty string. */
  lemma StoredCompleteIffAllSet(st: Snapshot)
    ensures StoredComplete(st) <==>
      forall k :: k in [UserEmailKey, ContactEmailKey, ContactPhoneKey] ==> k in st.items && st.items[k] != ""
  {
  }

  /** Every storage call the check makes succeeds. */
  predicate CheckSucceeds(st: Snapshot)
  {
    && UserEmailKey !in st.failing
    && ContactEmailKey !in st.failing
    && ContactPhoneKey !in st.failing
    && IsConfiguredKey !in st.failing
  }

  /** What the context publishes to its consumers. */
  datatype ContextValue = ContextValue(isConfigured: Option<bool>, isLoading: bool)

  class EmergencyProvider {
    var isConfigured: Option<bool>
    var isLoading: bool

    /** Before the first check: configuration unknown, loading. */
    constructor ()
      ensures isConfigured == None && isLoading
    {
      isConfigured := None;
      isLoading := true;
    }

    /** The configuration check (also run on refresh): read the three contact
        keys, publish whether all are set, persist that as "true"/"false";
        any raised error publishes `false`, even after `true` was published
        and the write then failed; loading ends on every path. */
    method CheckConfiguration(storage: AsyncStorage)
      modifies this, storage
      ensures !isLoading
      ensures storage.state.failing == old(storage.state.failing)
      ensures CheckSucceeds(old(storage.state)) ==>
        && isConfigured == Some(StoredComplete(old(storage.state)))
        && storage.state.items == old(storage.state.items)[IsConfiguredKey := FlagText(StoredComplete(old(storage.state)))]
      ensures !CheckSucceeds(old(storage.state)) ==> isConfigured == Some(false)
      ensures !CheckSucceeds(old(storage.state)) ==> storage.state.items == old(storage.state.items)
    {
      isLoading := true;
      var thrown := true;
      var userEmail := storage.state.Get(UserEmailKey);
      if userEmail.Ok? {
        var contactEmail := storage.state.Get(ContactEmailKey);
        if contactEmail.Ok? {
          var contactPhone := storage.state.Get(ContactPhoneKey);
          if contactPhone.Ok? {
            var complete := ConfigurationComplete(userEmail.value, contactEmail.value, contactPhone.value);
            isConfigured := Some(complete);
            var written := storage.SetItem(IsConfiguredKey, FlagText(complete));
            thrown := written.Raise?;
          }
        }
      }
      if thrown {
        isConfigured := Some(false);
      }
      isLoading := false;
    }
  }

  /** The consumer hook: outside a provider it raises, inside it hands back
      the provider's value unchanged. */
  function UseEmergencyContext(provided: Option<ContextValue>): (r: Reply<ContextValue>)
    ensures r.Ok? <==> provided.Some?
    ensures r.Ok? ==> r.value == provided.value
    ensures r.Raise? ==> r.message == OutsideProvider
  {
    match provided
    case None => Raise(OutsideProvider)
    case Some(v) => Ok(v)
  }
}
