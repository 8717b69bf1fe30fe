/**
 * The flow machine of src/screens/SecurityScreen.tsx: enabling, confirming and disabling
 * two-factor sign-in, the biometric gate and its persisted preference, the password-change
 * guards, and the active-session list. Each handler is one atomic step; what the security
 * service and the device's biometric API answer is a parameter, and each handler returns
 * the call it made on the service, if any, and the alert it raised, if any.
 */
module Security {
  import opened Outcomes
  import opened Json
  import opened Api
  import opened Storage
  import opened Notices
  import opened Sessions

  /** The calls the screen makes on the security service, with their arguments. */
  datatype SecurityCall =
    | GetSecurityStatus
    | RequestTwoFactor
    | ConfirmTwoFactor(challengeId: string, code: string)
    | DisableTwoFactor(senha: string)
    | ChangePassword(senhaAtual: string, novaSenha: string)
    | ListSessions
    | RevokeSession(id: string)
    | RevokeOtherSessions

  /** The status the screen reads: `twoFactorEnabled`, any JSON value (`JNull` when absent). */
  datatype SecurityStatus = SecurityStatus(twoFactorEnabled: Json)

  /** What `requestTwoFactor` resolves with: its `tokenId`, possibly missing. */
  datatype TwoFactorTicket = TwoFactorTicket(tokenId: Option<string>)

  /** What `listSessions` resolves with: `currentSessionId` and `sessions`, either possibly missing. */
  datatype SessionList = SessionList(currentSessionId: Option<string>, sessions: Option<seq<Session>>)

  /** The device checks the biometric gate asks for, in the order it asks. */
  datatype DeviceCheck = HardwareCheck | EnrolmentCheck | PromptCheck

  /** Every piece of the screen's state, for stating what a handler leaves alone. */
  datatype SecurityState = SecurityState(
    twoFactorEnabled: bool, twoFactorTokenId: Option<string>, twoFactorCode: string,
    twoFactorModalVisible: bool, disableTwoFactorVisible: bool, disablePassword: string,
    biometria: bool,
    changePasswordVisible: bool, senhaAtual: string, novaSenha: string, confirmSenha: string,
    sessionsVisible: bool, sessionsLoading: bool, sessions: seq<Session>, currentSessionId: Option<string>,
    loading: bool)

  const LoadFallback: string := "Nao foi possivel carregar"
  const EnableFallback: string := "Nao foi possivel ativar"
  const ConfirmFallback: string := "Codigo invalido"
  const DisableFallback: string := "Nao foi possivel desativar"
  const ChangeFallback: string := "Nao foi possivel alterar"
  const RevokeFallback: string := "Nao foi possivel deslogar"

  /** The biometric switch may move: turning it off always, turning it on only once every check passed. */
  predicate BiometricGateOpen(value: bool, hasHardware: bool, enrolled: bool, authenticated: bool) {
    !value || (hasHardware && enrolled && authenticated)
  }

  /** The preference as the store holds it. */
  function BiometricText(value: bool): string {
    if value then "true" else "false"
  }

  class SecurityScreen {
    var twoFactorEnabled: bool
    var twoFactorTokenId: Option<string>
    var twoFactorCode: string
    var twoFactorModalVisible: bool
    var disableTwoFactorVisible: bool
    var disablePassword: string
    var biometria: bool
    var changePasswordVisible: bool
    var senhaAtual: string
    var novaSenha: string
    var confirmSenha: string
    var sessionsVisible: bool
    var sessionsLoading: bool
    var sessions: seq<Session>
    var currentSessionId: Option<string>
    var loading: bool
    const storage: KeyValueStore

    function State(): SecurityState
      reads this
    {
      SecurityState(twoFactorEnabled, twoFactorTokenId, twoFactorCode, twoFactorModalVisible,
                    disableTwoFactorVisible, disablePassword, biometria, changePasswordVisible,
                    senhaAtual, novaSenha, confirmSenha, sessionsVisible, sessionsLoading, sessions,
                    currentSessionId, loading)
    }

    /** The screen before its first load: everything off, empty or absent. */
    constructor (storage: KeyValueStore)
      ensures State() == SecurityState(false, None, "", false, false, "", false, false, "", "", "",
                                       false, false, [], None, false)
      ensures this.storage == storage
    {
      twoFactorEnabled, twoFactorTokenId, twoFactorCode := false, None, "";
      twoFactorModalVisible, disableTwoFactorVisible, disablePassword := false, false, "";
      biometria := false;
      changePasswordVisible, senhaAtual, novaSenha, confirmSenha := false, "", "", "";
      sessionsVisible, sessionsLoading, sessions, currentSessionId := false, false, [], None;
      loading := false;
      this.storage := storage;
    }

    /**
     * `loadSecurity`: the two-factor flag is the truthiness of the status's flag, and the
     * biometric switch is on exactly when the store holds "true". A failed status call
     * reads nothing from the store and changes nothing.
     */
    method LoadSecurity(status: Result<SecurityStatus, Failure>) returns (call: SecurityCall, notice: Option<Notice>)
      modifies this
      ensures call == GetSecurityStatus
      ensures status.Ok? ==>
                notice == None &&
                State() == old(State()).(twoFactorEnabled := Truthy(status.value.twoFactorEnabled),
                                         biometria := Lookup(storage.entries, BiometricKey) == Some("true"))
      ensures status.Err? ==> notice == Some(ErrorAlert(status.error, LoadFallback)) && State() == old(State())
    {
      call, notice := GetSecurityStatus, None;
      match status {
      case Ok(s) =>
        twoFactorEnabled := Truthy(s.twoFactorEnabled);
        var stored := storage.GetItem(BiometricKey);
        biometria := stored == Some("true");
      case Err(e) =>
        notice := Some(ErrorAlert(e, LoadFallback));
      }
    }

    /**
     * `handleToggleTwoFactor`: while two-factor is on, only opens the disable dialog and
     * calls nothing. Otherwise requests a challenge and, on success, holds its id as
     * returned and opens the confirmation dialog.
     */
    method HandleToggleTwoFactor(reply: Result<TwoFactorTicket, Failure>) returns (call: Option<SecurityCall>, notice: Option<Notice>)
      modifies this
      ensures old(twoFactorEnabled) ==>
                call == None && notice == None && State() == old(State()).(disableTwoFactorVisible := true)
      ensures !old(twoFactorEnabled) ==> call == Some(RequestTwoFactor)
      ensures !old(twoFactorEnabled) && reply.Ok? ==>
                notice == None &&
                State() == old(State()).(twoFactorTokenId := reply.value.tokenId, twoFactorModalVisible := true, loading := false)
      ensures !old(twoFactorEnabled) && reply.Err? ==>
                notice == Some(ErrorAlert(reply.error, EnableFallback)) && State() == old(State()).(loading := false)
    {
      call, notice := None, None;
      if twoFactorEnabled {
        disableTwoFactorVisible := true;
        return;
      }
      loading := true;
      call := Some(RequestTwoFactor);
      match reply {
      case Ok(ticket) =>
        twoFactorTokenId := ticket.tokenId;
        twoFactorModalVisible := true;
      case Err(e) =>
        notice := Some(ErrorAlert(e, EnableFallback));
      }
      loading := false;
    }

    /**
     * `handleConfirmTwoFactor`: a no-op without a held challenge id. Success turns
     * two-factor on and drops the code and the challenge; failure keeps both, and the flag,
     * for another try.
     */
    method HandleConfirmTwoFactor(reply: Result<(), Failure>) returns (call: Option<SecurityCall>, notice: Option<Notice>)
      modifies this
      ensures !Held(old(twoFactorTokenId)) ==> call == None && notice == None && State() == old(State())
      ensures Held(old(twoFactorTokenId)) ==> call == Some(ConfirmTwoFactor(old(twoFactorTokenId).value, old(twoFactorCode)))
      ensures Held(old(twoFactorTokenId)) && reply.Ok? ==>
                notice == None &&
                State() == old(State()).(twoFactorEnabled := true, twoFactorCode := "", twoFactorTokenId := None,
                                         twoFactorModalVisible := false, loading := false)
      ensures Held(old(twoFactorTokenId)) && reply.Err? ==>
                notice == Some(ErrorAlert(reply.error, ConfirmFallback)) && State() == old(State()).(loading := false)
    {
      call, notice := None, None;
      if !Held(twoFactorTokenId) {
        return;
      }
      loading := true;
      call := Some(ConfirmTwoFactor(twoFactorTokenId.value, twoFactorCode));
      match reply {
      case Ok(_) =>
        twoFactorEnabled := true;
        twoFactorCode := "";
        twoFactorTokenId := None;
        twoFactorModalVisible := false;
      case Err(e) =>
        notice := Some(ErrorAlert(e, ConfirmFallback));
      }
      loading := false;
    }

    /**
     * `handleDisableTwoFactor`: always calls the service with the typed password. Success
     * turns two-factor off and clears the password; failure changes neither.
     */
    method HandleDisableTwoFactor(reply: Result<(), Failure>) returns (call: SecurityCall, notice: Option<Notice>)
      modifies this
      ensures call == DisableTwoFactor(old(disablePassword))
      ensures reply.Ok? ==>
                notice == None &&
                State() == old(State()).(twoFactorEnabled := false, disablePassword := "",
                                         disableTwoFactorVisible := false, loading := false)
      ensures reply.Err? ==>
                notice == Some(ErrorAlert(reply.error, DisableFallback)) && State() == old(State()).(loading := false)
    {
      loading := true;
      call, notice := DisableTwoFactor(disablePassword), None;
      match reply {
      case Ok(_) =>
        twoFactorEnabled := false;
        disablePassword := "";
        disableTwoFactorVisible := false;
      case Err(e) =>
        notice := Some(ErrorAlert(e, DisableFallback));
      }
      loading := false;
    }

    /**
     * `handleToggleBiometria(value)`: turning the switch on asks the device for hardware,
     * then enrolment, then a successful prompt, stopping at the first that fails; only when
     * all three pass does the switch move and "true" get stored. Turning it off asks
     * nothing and always stores "false".
     */
    method HandleToggleBiometria(value: bool, hasHardware: bool, enrolled: bool, authenticated: bool)
      returns (checks: seq<DeviceCheck>, notice: Option<Notice>)
      modifies this, storage
      ensures !value ==> checks == []
      ensures value ==> checks == [HardwareCheck] + (if hasHardware then [EnrolmentCheck] + (if enrolled then [PromptCheck] else []) else [])
      ensures notice == if value && !hasHardware then Some(Alert("Biometria", "Dispositivo sem suporte."))
                        else if value && !enrolled then Some(Alert("Biometria", "Nenhuma biometria cadastrada."))
                        else None
      ensures BiometricGateOpen(value, hasHardware, enrolled, authenticated) ==>
                State() == old(State()).(biometria := value) &&
                storage.entries == old(storage.entries)[BiometricKey := BiometricText(value)]
      ensures !BiometricGateOpen(value, hasHardware, enrolled, authenticated) ==>
                State() == old(State()) && storage.entries == old(storage.entries)
    {
      checks, notice := [], None;
      if value {
        checks := [HardwareCheck];
        if !hasHardware {
          notice := Some(Alert("Biometria", "Dispositivo sem suporte."));
          return;
        }
        checks := checks + [EnrolmentCheck];
        if !enrolled {
          notice := Some(Alert("Biometria", "Nenhuma biometria cadastrada."));
          return;
        }
        checks := checks + [PromptCheck];
        if !authenticated {
          return;
        }
      }
      biometria := value;
      storage.SetItem(BiometricKey, BiometricText(value));
    }

    /**
     * `handleChangePassword`: refuses an empty current or new password, then a new password
     * that differs from its confirmation, before any call. Success clears the three fields
     * and closes the dialog.
     */
    method HandleChangePassword(reply: Result<(), Failure>) returns (call: Option<SecurityCall>, notice: Option<Notice>)
      modifies this
      ensures old(senhaAtual) == "" || old(novaSenha) == "" ==>
                call == None && notice == Some(Alert("Erro", "Preencha todos os campos")) && State() == old(State())
      ensures old(senhaAtual) != "" && old(novaSenha) != "" && old(novaSenha) != old(confirmSenha) ==>
                call == None && notice == Some(Alert("Erro", "As senhas nao conferem")) && State() == old(State())
      ensures call.Some? <==> old(senhaAtual) != "" && old(novaSenha) != "" && old(novaSenha) == old(confirmSenha)
      ensures call.Some? ==> call.value == ChangePassword(old(senhaAtual), old(novaSenha))
      ensures call.Some? && reply.Ok? ==>
                notice == Some(Alert("Senha alterada", "Sua senha foi atualizada.")) &&
                State() == old(State()).(senhaAtual := "", novaSenha := "", confirmSenha := "",
                                         changePasswordVisible := false, loading := false)
      ensures call.Some? && reply.Err? ==>
                notice == Some(ErrorAlert(reply.error, ChangeFallback)) && State() == old(State()).(loading := false)
    {
      call, notice := None, None;
      if senhaAtual == "" || novaSenha == "" {
        notice := Some(Alert("Erro", "Preencha todos os campos"));
        return;
      }
      if novaSenha != confirmSenha {
        notice := Some(Alert("Erro", "As senhas nao conferem"));
        return;
      }
      loading := true;
      call := Some(ChangePassword(senhaAtual, novaSenha));
      match reply {
      case Ok(_) =>
        senhaAtual, novaSenha, confirmSenha := "", "", "";
        changePasswordVisible := false;
        notice := Some(Alert("Senha alterada", "Sua senha foi atualizada."));
      case Err(e) =>
        notice := Some(ErrorAlert(e, ChangeFallback));
      }
      loading := false;
    }

    /**
     * `handleOpenSessions`: shows the listed sessions, with no current id when the reply
     * lacks one (or gives an empty one) and an empty list when it lacks the list.
     */
    method HandleOpenSessions(reply: Result<SessionList, Failure>) returns (call: SecurityCall, notice: Option<Notice>)
      modifies this
      ensures call == ListSessions
      ensures reply.Ok? ==>
                notice == None &&
                State() == old(State()).(currentSessionId := NonEmpty(reply.value.currentSessionId),
                                         sessions := if reply.value.sessions.Some? then reply.value.sessions.value else [],
                                         sessionsVisible := true, sessionsLoading := false)
      ensures reply.Err? ==>
                notice == Some(ErrorAlert(reply.error, LoadFallback)) && State() == old(State()).(sessionsLoading := false)
    {
      sessionsLoading := true;
      call, notice := ListSessions, None;
      match reply {
      case Ok(list) =>
        currentSessionId := NonEmpty(list.currentSessionId);
        sessions := if list.sessions.Some? then list.sessions.value else [];
        sessionsVisible := true;
      case Err(e) =>
        notice := Some(ErrorAlert(e, LoadFallback));
      }
      sessionsLoading := false;
    }

    /** `handleRevokeSession(id)`: on success the list loses the sessions called `id`; on failure it stays. */
    method HandleRevokeSession(id: string, reply: Result<(), Failure>) returns (call: SecurityCall, notice: Option<Notice>)
      modifies this
      ensures call == RevokeSession(id)
      ensures reply.Ok? ==> notice == None && State() == old(State()).(sessions := WithoutSession(old(sessions), id))
      ensures reply.Err? ==> notice == Some(ErrorAlert(reply.error, RevokeFallback)) && State() == old(State())
    {
      call, notice := RevokeSession(id), None;
      match reply {
      case Ok(_) =>
        sessions := WithoutSession(sessions, id);
      case Err(e) =>
        notice := Some(ErrorAlert(e, RevokeFallback));
      }
    }

    /** `handleRevokeOthers`: on success only the current session stays listed; on failure the list stays. */
    method HandleRevokeOthers(reply: Result<(), Failure>) returns (call: SecurityCall, notice: Option<Notice>)
      modifies this
      ensures call == RevokeOtherSessions
      ensures reply.Ok? ==>
                notice == None && State() == old(State()).(sessions := OnlyCurrent(old(sessions), old(currentSessionId)))
      ensures reply.Err? ==> notice == Some(ErrorAlert(reply.error, RevokeFallback)) && State() == old(State())
    {
      call, notice := RevokeOtherSessions, None;
      match reply {
      case Ok(_) =>
        sessions := OnlyCurrent(sessions, currentSessionId);
      case Err(e) =>
        notice := Some(ErrorAlert(e, RevokeFallback));
      }
    }
  }

  /**
   * Turning two-factor on from a freshly loaded screen where it is off: the service is
   * asked for a challenge, the typed code is confirmed against it, and the flag ends on.
   */
  method EnableTwoFactor(entries: map<string, string>, challenge: string, code: string)
    returns (calls: seq<SecurityCall>, enabled: bool)
    requires challenge != ""
    ensures calls == [GetSecurityStatus, RequestTwoFactor, ConfirmTwoFactor(challenge, code)]
    ensures enabled
  {
    var store := new KeyValueStore(entries);
    var screen := new SecurityScreen(store);
    var c0, n0 := screen.LoadSecurity(Ok(SecurityStatus(JBool(false))));
    var c1, n1 := screen.HandleToggleTwoFactor(Ok(TwoFactorTicket(Some(challenge))));
    screen.twoFactorCode := code;
    var c2, n2 := screen.HandleConfirmTwoFactor(Ok(()));
    calls := [c0, c1.value, c2.value];
    enabled := screen.twoFactorEnabled;
  }

  /**
   * Asking to turn biometrics on when some device check fails leaves the stored
   * preference as it was, so the next load shows the switch as it was before.
   */
  method RefusedBiometrics(entries: map<string, string>, hasHardware: bool, enrolled: bool, authenticated: bool)
    returns (stored: Option<string>, shown: bool)
    requires !(hasHardware && enrolled && authenticated)
    ensures stored == Lookup(entries, BiometricKey)
    ensures shown == (Lookup(entries, BiometricKey) == Some("true"))
  {
    var store := new KeyValueStore(entries);
    var screen := new SecurityScreen(store);
    var checks, alert := screen.HandleToggleBiometria(true, hasHardware, enrolled, authenticated);
    stored := store.GetItem(BiometricKey);
    var next := new SecurityScreen(store);
    var call, failure := next.LoadSecurity(Ok(SecurityStatus(JNull)));
    shown := next.biometria;
  }

  /**
   * Opening the session list and revoking a session offered with a "Deslogar" button:
   * whatever the server lists, the current session is still listed afterwards.
   */
  method RevokeListedSession(list: SessionList, target: Session) returns (listed: seq<Session>)
    requires target in Revocable(if list.sessions.Some? then list.sessions.value else [], NonEmpty(list.currentSessionId))
    ensures forall s :: s in listed ==> s.id != target.id
    ensures OnlyCurrent(listed, NonEmpty(list.currentSessionId)) ==
            OnlyCurrent(if list.sessions.Some? then list.sessions.value else [], NonEmpty(list.currentSessionId))
  {
    var store := new KeyValueStore(map[]);
    var screen := new SecurityScreen(store);
    var c0, n0 := screen.HandleOpenSessions(Ok(list));
    var shown := screen.sessions;
    RevokeSparesCurrent(shown, screen.currentSessionId, target);
    var c1, n1 := screen.HandleRevokeSession(target.id, Ok(()));
    listed := screen.sessions;
    forall s | s in listed
      ensures s.id != target.id
    {
      FilterMembers(shown, OtherThan(target.id), s);
    }
  }
}
