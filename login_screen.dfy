/**
 * The flow machine of src/screens/LoginScreen.tsx: sign-in, the "two-factor pending"
 * sub-state keyed on a held challenge id, and the password-reset sub-flow. Each handler is
 * one atomic step; what the collaborators (`signIn`, `verifyTwoFactor`,
 * `requestPasswordReset`, `resetPassword`) resolve or reject with is a parameter, and each
 * handler returns the call it made, if any, and the alert it raised, if any.
 */
module Login {
  import opened Outcomes
  import opened Api
  import opened Notices

  /** The calls the screen makes on its collaborators, with their arguments. */
  datatype LoginCall =
    | SignIn(email: string, senha: string)
    | VerifyTwoFactor(challengeId: string, code: string)
    | RequestPasswordReset(email: string)
    | ResetPassword(tokenId: string, code: string, senha: string)

  /** A sign-in result as the screen reads it: `requiresTwoFactor`, `twoFactorTokenId`, `email`. */
  datatype LoginResult = LoginResult(requiresTwoFactor: bool, twoFactorTokenId: Option<string>, email: Option<string>)

  /** What `requestPasswordReset` resolves with: `tokenId` and `email`, either possibly missing. */
  datatype ResetTicket = ResetTicket(tokenId: Option<string>, email: Option<string>)

  /** Every piece of the screen's state, for stating what a handler leaves alone. */
  datatype LoginState = LoginState(
    email: string, senha: string,
    twoFactorTokenId: Option<string>, twoFactorCode: string, twoFactorEmail: string,
    loading: bool,
    resetModalVisible: bool, resetEmail: string, resetTokenId: Option<string>,
    resetCode: string, resetSenha: string, resetConfirm: string)

  const LoginFallback: string := "Nao foi possivel entrar."
  const VerifyFallback: string := "Codigo invalido."
  const RequestResetFallback: string := "Nao foi possivel enviar."
  const ResetFallback: string := "Nao foi possivel redefinir."
  const GenericResetReply: string := "Se o e-mail existir, enviamos um codigo."

  /** `result?.requiresTwoFactor`: the sign-in resolved with a result that asks for a second factor. */
  predicate AsksSecondFactor(reply: Result<Option<LoginResult>, Failure>) {
    reply.Ok? && reply.value.Some? && reply.value.value.requiresTwoFactor
  }

  /** `result?.tokenId` is truthy. */
  predicate IssuesResetChallenge(reply: Result<Option<ResetTicket>, Failure>) {
    reply.Ok? && reply.value.Some? && Held(reply.value.value.tokenId)
  }

  class LoginScreen {
    var email: string
    var senha: string
    var twoFactorTokenId: Option<string>
    var twoFactorCode: string
    var twoFactorEmail: string
    var loading: bool
    var resetModalVisible: bool
    var resetEmail: string
    var resetTokenId: Option<string>
    var resetCode: string
    var resetSenha: string
    var resetConfirm: string

    function State(): LoginState
      reads this
    {
      LoginState(email, senha, twoFactorTokenId, twoFactorCode, twoFactorEmail, loading,
                 resetModalVisible, resetEmail, resetTokenId, resetCode, resetSenha, resetConfirm)
    }

    /** The two-factor sub-state: a challenge id is held. */
    predicate TwoFactorPending()
      reads this
    {
      Held(twoFactorTokenId)
    }

    /** The screen as it first renders: every field empty, nothing pending. */
    constructor ()
      ensures State() == LoginState("", "", None, "", "", false, false, "", None, "", "", "")
      ensures !TwoFactorPending()
    {
      email, senha := "", "";
      twoFactorTokenId, twoFactorCode, twoFactorEmail := None, "", "";
      loading := false;
      resetModalVisible, resetEmail, resetTokenId := false, "", None;
      resetCode, resetSenha, resetConfirm := "", "", "";
    }

    /**
     * `handleLogin`: signs in with the typed credentials. A result asking for a second
     * factor stores its challenge id (absent when missing or empty) and its e-mail (empty
     * when missing); any other outcome leaves the challenge state as it was.
     */
    method HandleLogin(reply: Result<Option<LoginResult>, Failure>) returns (call: LoginCall, notice: Option<Notice>)
      modifies this
      ensures call == SignIn(old(email), old(senha))
      ensures AsksSecondFactor(reply) ==>
                notice == None &&
                State() == old(State()).(twoFactorTokenId := NonEmpty(reply.value.value.twoFactorTokenId),
                                         twoFactorEmail := OrElse(reply.value.value.email, ""), loading := false)
      ensures reply.Ok? && !AsksSecondFactor(reply) ==> notice == None && State() == old(State()).(loading := false)
      ensures reply.Err? ==>
                notice == Some(ErrorAlert(reply.error, LoginFallback)) && State() == old(State()).(loading := false)
    {
      loading := true;
      call := SignIn(email, senha);
      notice := None;
      match reply {
      case Ok(result) =>
        if result.Some? && result.value.requiresTwoFactor {
          twoFactorTokenId := NonEmpty(result.value.twoFactorTokenId);
          twoFactorEmail := OrElse(result.value.email, "");
        }
      case Err(e) =>
        notice := Some(ErrorAlert(e, LoginFallback));
      }
      loading := false;
    }

    /**
     * `handleVerifyTwoFactor`: a no-op without a held challenge id. Otherwise submits the
     * id with the typed code; success clears the code, the id and the e-mail, failure keeps
     * them so the code can be entered again.
     */
    method HandleVerifyTwoFactor(reply: Result<(), Failure>) returns (call: Option<LoginCall>, notice: Option<Notice>)
      modifies this
      ensures !old(TwoFactorPending()) ==> call == None && notice == None && State() == old(State())
      ensures old(TwoFactorPending()) ==> call == Some(VerifyTwoFactor(old(twoFactorTokenId).value, old(twoFactorCode)))
      ensures old(TwoFactorPending()) && reply.Ok? ==>
                notice == None && !TwoFactorPending() &&
                State() == old(State()).(twoFactorCode := "", twoFactorTokenId := None, twoFactorEmail := "", loading := false)
      ensures old(TwoFactorPending()) && reply.Err? ==>
                notice == Some(ErrorAlert(reply.error, VerifyFallback)) && State() == old(State()).(loading := false)
    {
      call, notice := None, None;
      if !Held(twoFactorTokenId) {
        return;
      }
      loading := true;
      call := Some(VerifyTwoFactor(twoFactorTokenId.value, twoFactorCode));
      match reply {
      case Ok(_) =>
        twoFactorCode := "";
        twoFactorTokenId := None;
        twoFactorEmail := "";
      case Err(e) =>
        notice := Some(ErrorAlert(e, VerifyFallback));
      }
      loading := false;
    }

    /** The primary button: verify while a challenge is pending, sign in otherwise. */
    method PressPrimary(loginReply: Result<Option<LoginResult>, Failure>, verifyReply: Result<(), Failure>)
      returns (call: Option<LoginCall>, notice: Option<Notice>)
      modifies this
      ensures old(TwoFactorPending()) ==> call == Some(VerifyTwoFactor(old(twoFactorTokenId).value, old(twoFactorCode)))
      ensures !old(TwoFactorPending()) ==> call == Some(SignIn(old(email), old(senha)))
      ensures old(TwoFactorPending()) && verifyReply.Ok? ==> !TwoFactorPending()
      ensures old(TwoFactorPending()) && verifyReply.Err? ==> twoFactorTokenId == old(twoFactorTokenId)
      ensures !old(TwoFactorPending()) && AsksSecondFactor(loginReply) ==>
                twoFactorTokenId == NonEmpty(loginReply.value.value.twoFactorTokenId)
      ensures !old(TwoFactorPending()) && !AsksSecondFactor(loginReply) ==> twoFactorTokenId == old(twoFactorTokenId)
      ensures twoFactorCode == if old(TwoFactorPending()) && verifyReply.Ok? then "" else old(twoFactorCode)
    {
      if TwoFactorPending() {
        call, notice := HandleVerifyTwoFactor(verifyReply);
      } else {
        var c;
        c, notice := HandleLogin(loginReply);
        call := Some(c);
      }
    }

    /** "Esqueci a senha", offered only while no two-factor challenge is held: opens the reset dialog. */
    method OpenReset()
      requires !TwoFactorPending()
      modifies this
      ensures State() == old(State()).(resetModalVisible := true)
    {
      resetModalVisible := true;
    }

    /**
     * `handleRequestReset`: an empty e-mail is refused before any call. A reply without a
     * truthy `tokenId` gets the generic "if the e-mail exists" answer and sets nothing; a
     * reply with one holds it as the reset challenge.
     */
    method HandleRequestReset(reply: Result<Option<ResetTicket>, Failure>) returns (call: Option<LoginCall>, notice: Option<Notice>)
      modifies this
      ensures old(resetEmail) == "" ==>
                call == None && notice == Some(Alert("Erro", "Informe o e-mail.")) && State() == old(State())
      ensures old(resetEmail) != "" ==> call == Some(RequestPasswordReset(old(resetEmail)))
      ensures old(resetEmail) != "" && reply.Ok? && !IssuesResetChallenge(reply) ==>
                notice == Some(Alert("Redefinicao", GenericResetReply)) && State() == old(State()).(loading := false)
      ensures old(resetEmail) != "" && IssuesResetChallenge(reply) ==>
                notice == Some(Alert("Redefinicao", "Enviamos um codigo para " + OrElse(reply.value.value.email, "seu email") + ".")) &&
                State() == old(State()).(resetTokenId := reply.value.value.tokenId, loading := false)
      ensures old(resetEmail) != "" && reply.Err? ==>
                notice == Some(ErrorAlert(reply.error, RequestResetFallback)) && State() == old(State()).(loading := false)
    {
      if resetEmail == "" {
        call, notice := None, Some(Alert("Erro", "Informe o e-mail."));
        return;
      }
      loading := true;
      call := Some(RequestPasswordReset(resetEmail));
      match reply {
      case Ok(result) =>
        if result.None? || !Held(result.value.tokenId) {
          notice := Some(Alert("Redefinicao", GenericResetReply));
        } else {
          resetTokenId := result.value.tokenId;
          notice := Some(Alert("Redefinicao", "Enviamos um codigo para " + OrElse(result.value.email, "seu email") + "."));
        }
      case Err(e) =>
        notice := Some(ErrorAlert(e, RequestResetFallback));
      }
      loading := false;
    }

    /**
     * `handleResetPassword`: a no-op without a held reset challenge; refuses an empty code
     * or password, then a password that differs from its confirmation, before any call.
     * Success closes the dialog and clears the challenge, code, password and confirmation.
     */
    method HandleResetPassword(reply: Result<(), Failure>) returns (call: Option<LoginCall>, notice: Option<Notice>)
      modifies this
      ensures !Held(old(resetTokenId)) ==> call == None && notice == None && State() == old(State())
      ensures Held(old(resetTokenId)) && (old(resetCode) == "" || old(resetSenha) == "") ==>
                call == None && notice == Some(Alert("Erro", "Preencha codigo e nova senha.")) && State() == old(State())
      ensures Held(old(resetTokenId)) && old(resetCode) != "" && old(resetSenha) != "" && old(resetSenha) != old(resetConfirm) ==>
                call == None && notice == Some(Alert("Erro", "As senhas nao conferem.")) && State() == old(State())
      ensures call.Some? <==>
                Held(old(resetTokenId)) && old(resetCode) != "" && old(resetSenha) != "" && old(resetSenha) == old(resetConfirm)
      ensures call.Some? ==> call.value == ResetPassword(old(resetTokenId).value, old(resetCode), old(resetSenha))
      ensures call.Some? && reply.Ok? ==>
                notice == Some(Alert("Senha atualizada", "Entre com a nova senha.")) &&
                State() == old(State()).(resetModalVisible := false, resetTokenId := None, resetCode := "",
                                         resetSenha := "", resetConfirm := "", loading := false)
      ensures call.Some? && reply.Err? ==>
                notice == Some(ErrorAlert(reply.error, ResetFallback)) && State() == old(State()).(loading := false)
    {
      call, notice := None, None;
      if !Held(resetTokenId) {
        return;
      }
      if resetCode == "" || resetSenha == "" {
        notice := Some(Alert("Erro", "Preencha codigo e nova senha."));
        return;
      }
      if resetSenha != resetConfirm {
        notice := Some(Alert("Erro", "As senhas nao conferem."));
        return;
      }
      loading := true;
      call := Some(ResetPassword(resetTokenId.value, resetCode, resetSenha));
      match reply {
      case Ok(_) =>
        notice := Some(Alert("Senha atualizada", "Entre com a nova senha."));
        resetModalVisible := false;
        resetTokenId := None;
        resetCode, resetSenha, resetConfirm := "", "", "";
      case Err(e) =>
        notice := Some(ErrorAlert(e, ResetFallback));
      }
      loading := false;
    }

    /** "Cancelar" in the reset dialog: closes it and drops the challenge and what was typed, except the e-mail. */
    method CancelReset()
      modifies this
      ensures State() == old(State()).(resetModalVisible := false, resetTokenId := None, resetCode := "",
                                       resetSenha := "", resetConfirm := "")
    {
      resetModalVisible := false;
      resetTokenId := None;
      resetCode, resetSenha, resetConfirm := "", "", "";
    }
  }

  /**
   * A login that asks for a second factor, followed by a correct code, both through the
   * primary button: the calls made, and whether a challenge is still pending afterwards.
   */
  method TwoFactorLogin(email: string, senha: string, challenge: string, sentTo: string, code: string)
    returns (calls: seq<LoginCall>, pending: bool)
    requires challenge != ""
    ensures calls == [SignIn(email, senha), VerifyTwoFactor(challenge, code)]
    ensures !pending
  {
    var screen := new LoginScreen();
    screen.email, screen.senha := email, senha;
    var c1, _ := screen.PressPrimary(Ok(Some(LoginResult(true, Some(challenge), Some(sentTo)))), Ok(()));
    screen.twoFactorCode := code;
    var c2, _ := screen.PressPrimary(Ok(None), Ok(()));
    calls := [c1.value, c2.value];
    pending := screen.TwoFactorPending();
  }

  /**
   * A reset whose new password does not match its confirmation: only the reset request is
   * made, and the challenge stays held so the user can correct the fields.
   */
  method MismatchedReset(email: string, ticket: string, code: string, senha: string, confirm: string)
    returns (request: Option<LoginCall>, reset: Option<LoginCall>, held: Option<string>)
    requires email != "" && ticket != "" && code != "" && senha != "" && senha != confirm
    ensures request == Some(RequestPasswordReset(email))
    ensures reset == None
    ensures held == Some(ticket)
  {
    var screen := new LoginScreen();
    screen.OpenReset();
    screen.resetEmail := email;
    var alert;
    request, alert := screen.HandleRequestReset(Ok(Some(ResetTicket(Some(ticket), None))));
    screen.resetCode, screen.resetSenha, screen.resetConfirm := code, senha, confirm;
    reset, alert := screen.HandleResetPassword(Ok(()));
    held := screen.resetTokenId;
  }
}
