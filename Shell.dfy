/** The page shell (src/components/layout/Layout.tsx): the authentication
    gate over local storage, the registration modal it hosts, and the
    forwarding of the language toggle to the application root. */
module Shell {
  import opened Common
  import opened LocalStore
  import AppRoot
  import Auth

  /** The mount-time decision: the modal is needed when the stored flag is
      absent or empty. Any other text, "false" included, counts as signed in. */
  function NeedsAuth(flag: Option<Stored>): (b: bool)
    ensures b <==> flag == None || flag == Some(Text(""))
  {
    !Truthy(flag)
  }

  /** The storage after `handleAuthSuccess`. */
  function AfterAuthSuccess(items: map<string, Stored>): (r: map<string, Stored>)
    ensures AuthKey in r && r[AuthKey] == Text("true")
    ensures r.Keys == items.Keys + {AuthKey}
    ensures forall k :: k in items && k != AuthKey ==> r[k] == items[k]
  {
    items[AuthKey := Text("true")]
  }

  /** Once sign-up has succeeded, a later mount does not show the modal. */
  lemma AuthSuccessOpensGate(items: map<string, Stored>)
    ensures !NeedsAuth(Some(AfterAuthSuccess(items)[AuthKey]))
  {
  }

  /** A second success leaves the storage as the first left it. */
  lemma AuthSuccessIdempotent(items: map<string, Stored>)
    ensures AfterAuthSuccess(AfterAuthSuccess(items)) == AfterAuthSuccess(items)
  {
  }

  /** The gate tests presence, not the value: "false" is let through, and only
      an absent or empty flag shows the modal. */
  lemma GateTestsPresenceOnly()
    ensures !NeedsAuth(Some(Text("false")))
    ensures NeedsAuth(None) && NeedsAuth(Some(Text("")))
  {
  }

  class Layout {
    var showAuthModal: bool
    const currentLanguage: string
    /** The parent's `onLanguageToggle`, when one was passed. */
    const onLanguageToggle: AppRoot.AppState?
    const store: LocalStorage
    const modal: Auth.AuthModal

    /** The modal writes to the same storage as the shell. */
    ghost predicate Valid()
      reads this
    {
      modal.store == store
    }

    constructor (store: LocalStorage, language: Option<string>, onLanguageToggle: AppRoot.AppState?)
      ensures Valid() && !showAuthModal
      ensures currentLanguage == (if language.Some? then language.value else "en")
      ensures this.store == store && this.onLanguageToggle == onLanguageToggle
      ensures fresh(modal) && modal.store == store && modal.Valid()
      ensures modal.formData == Auth.EmptyForm && !modal.isLoading && modal.pending == []
    {
      showAuthModal := false;
      currentLanguage := if language.Some? then language.value else "en";
      this.store := store;
      this.onLanguageToggle := onLanguageToggle;
      modal := new Auth.AuthModal(store);
    }

    /** The mount effect: read the flag and show the modal when it is falsy;
        otherwise leave the modal as it is. */
    method Mount()
      modifies this`showAuthModal
      ensures showAuthModal == (old(showAuthModal) || NeedsAuth(store.GetItem(AuthKey)))
    {
      var flag := store.GetItem(AuthKey);
      if !Truthy(flag) {
        showAuthModal := true;
      }
    }

    /** `handleAuthSuccess`: store "true" under the flag key and hide the modal. */
    method HandleAuthSuccess()
      modifies this`showAuthModal, store
      ensures store.items == AfterAuthSuccess(old(store.items))
      ensures !showAuthModal
    {
      store.SetItem(AuthKey, Text("true"));
      showAuthModal := false;
    }

    /** The modal's `onClose` and `onOpenChange` are both no-ops: the only way
        to hide the modal is a successful sign-up. */
    method RequestClose()
      ensures showAuthModal == old(showAuthModal) && store.items == old(store.items)
    {
    }

    /** The end of the modal's simulated round trip, followed by its
        `onSuccess`, which is `handleAuthSuccess`. */
    method AuthRoundTripDone() returns (user: Auth.UserForm)
      requires Valid() && modal.Valid() && modal.pending != []
      modifies this`showAuthModal, store, modal
      ensures modal.Valid() && Auth.CheckSubmission(user).None?
      ensures user == old(modal.pending[0]) && modal.pending == old(modal.pending[1..])
      ensures store.items == AfterAuthSuccess(old(store.items)[UserKey := Auth.Serialized(user)])
      ensures !modal.isLoading && !showAuthModal && modal.formData == old(modal.formData)
    {
      user := modal.CompleteSubmit();
      HandleAuthSuccess();
    }

    /** `handleLanguageToggle`: forwards to the parent's handler when there is
        one, and otherwise does nothing. */
    method HandleLanguageToggle()
      modifies if onLanguageToggle != null then {onLanguageToggle} else {}
      ensures onLanguageToggle != null ==>
                onLanguageToggle.currentLanguage == AppRoot.ToggleLanguage(old(onLanguageToggle.currentLanguage))
                && onLanguageToggle.Valid()
    {
      if onLanguageToggle != null {
        onLanguageToggle.HandleLanguageToggle();
      }
    }
  }
}
