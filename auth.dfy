/** The credential handlers of app.py: registration, login gating, e-mail
    verification and the password-reset flow.  The `utilisateurs` table is a
    sequence of `Utilisateur` objects in insertion order; a query's `.first()`
    is the first matching row.  Each handler's effect is all-or-nothing, as a
    committed (or rolled-back) transaction is.  The clock reading
    `datetime.utcnow()` is the parameter `now` (seconds); whether the mail was
    sent is the parameter `mailSent`; the random code digits and token are
    parameters too. */
module Auth {
  import opened Common
  import opened Models

  const MIN_PASSWORD_LENGTH: nat := 6

  /** Outcome of the three successive tests that verify-reset-code and
      reset-password-with-code apply to a stored code. */
  datatype CodeCheck = NoActiveCode | CodeExpired | CodeIncorrect | CodeAccepted

  /** No (or an empty) code first, then expiry (`expiration < now`: the
      expiry instant itself still passes), then equality. */
  function CheckResetCode(stored: Option<string>, expiration: Option<int>, given: string, now: int): (v: CodeCheck)
    requires stored.Some? ==> expiration.Some?
    ensures v == NoActiveCode <==> stored.None? || stored.value == ""
    ensures v == CodeExpired <==> stored.Some? && stored.value != "" && expiration.value < now
    ensures v == CodeIncorrect <==> stored.Some? && stored.value != "" && now <= expiration.value && stored.value != given
    ensures v == CodeAccepted <==> given != "" && stored == Some(given) && now <= expiration.value
  {
    if stored.None? || stored.value == "" then NoActiveCode
    else if expiration.value < now then CodeExpired
    else if stored.value != given then CodeIncorrect
    else CodeAccepted
  }

  /** A code issued at `issued` is accepted at the expiry instant and
      refused one second later, and an expired code is reported as expired
      even when it is also wrong. */
  lemma ResetCodeExpiryBoundary(code: string, other: string, issued: int)
    requires code != "" && other != code
    ensures CheckResetCode(Some(code), Some(issued + RESET_CODE_LIFETIME), code, issued + RESET_CODE_LIFETIME) == CodeAccepted
    ensures CheckResetCode(Some(code), Some(issued + RESET_CODE_LIFETIME), code, issued + RESET_CODE_LIFETIME + 1) == CodeExpired
    ensures CheckResetCode(Some(code), Some(issued + RESET_CODE_LIFETIME), other, issued + RESET_CODE_LIFETIME + 1) == CodeExpired
  {
  }

  /** The reply for a refused code; the two handlers word the expiry differently. */
  function CodeRejection(v: CodeCheck, expiredMessage: string): (r: Reply)
    requires v != CodeAccepted
    ensures r.Failure? && r.status == 400
    ensures v == NoActiveCode ==> r.error == "Aucun code de réinitialisation actif"
    ensures v == CodeExpired ==> r.error == expiredMessage
    ensures v == CodeIncorrect ==> r.error == "Code incorrect"
  {
    match v
    case NoActiveCode => Failure(400, "Aucun code de réinitialisation actif")
    case CodeExpired => Failure(400, expiredMessage)
    case CodeIncorrect => Failure(400, "Code incorrect")
  }

  class Accounts {
    var utilisateurs: seq<Utilisateur>
    var nextId: nat

    /** Rows are distinct objects, each satisfying its own invariant. */
    ghost predicate Valid()
      reads this, utilisateurs
    {
      && Distinct(utilisateurs)
      && forall i :: 0 <= i < |utilisateurs| ==> utilisateurs[i].Valid()
    }

    /** The table as values. */
    ghost function Snapshot(): (s: seq<AccountState>)
      reads this, utilisateurs
      ensures |s| == |utilisateurs|
    {
      seq(|utilisateurs|, i reads this, utilisateurs requires 0 <= i < |utilisateurs| => utilisateurs[i].State())
    }

    function Emails(): (r: seq<string>)
      reads this, utilisateurs
      ensures |r| == |utilisateurs| && forall i :: 0 <= i < |r| ==> r[i] == utilisateurs[i].email
    {
      seq(|utilisateurs|, i reads this, utilisateurs requires 0 <= i < |utilisateurs| => utilisateurs[i].email)
    }

    function Tokens(): (r: seq<Option<string>>)
      reads this, utilisateurs
      ensures |r| == |utilisateurs| && forall i :: 0 <= i < |r| ==> r[i] == utilisateurs[i].verification_token
    {
      seq(|utilisateurs|, i reads this, utilisateurs requires 0 <= i < |utilisateurs| => utilisateurs[i].verification_token)
    }

    /** `Utilisateur.query.filter_by(email=email).first()` */
    function FindByEmail(email: string): (r: Option<nat>)
      reads this, utilisateurs
      ensures r.Some? ==> r.value < |utilisateurs| && utilisateurs[r.value].email == email
      ensures r.Some? ==> forall j :: 0 <= j < r.value ==> utilisateurs[j].email != email
      ensures r.None? ==> forall i :: 0 <= i < |utilisateurs| ==> utilisateurs[i].email != email
    {
      FirstIndex(Emails(), email)
    }

    /** `Utilisateur.query.filter_by(verification_token=token).first()` */
    function FindByToken(token: string): (r: Option<nat>)
      reads this, utilisateurs
      ensures r.Some? ==> r.value < |utilisateurs| && utilisateurs[r.value].verification_token == Some(token)
      ensures r.Some? ==> forall j :: 0 <= j < r.value ==> utilisateurs[j].verification_token != Some(token)
      ensures r.None? ==> forall i :: 0 <= i < |utilisateurs| ==> utilisateurs[i].verification_token != Some(token)
    {
      FirstIndex(Tokens(), Some(token))
    }

    constructor ()
      ensures Valid() && utilisateurs == [] && nextId == 1
    {
      utilisateurs := [];
      nextId := 1;
    }

    /** Only row `k` may differ between the two states. */
    twostate lemma OnlyRowChanged(k: nat)
      requires old(Valid()) && k < |old(utilisateurs)| && utilisateurs == old(utilisateurs)
      requires forall j :: 0 <= j < |utilisateurs| && j != k ==> unchanged(utilisateurs[j])
      requires utilisateurs[k].Valid() && utilisateurs[k].email == old(utilisateurs[k].email)
      ensures Valid()
      ensures Snapshot() == old(Snapshot())[k := utilisateurs[k].State()]
      ensures Emails() == old(Emails())
    {
      forall j | 0 <= j < |utilisateurs| && j != k ensures utilisateurs[j].State() == old(utilisateurs[j].State()) {
      }
    }

    /** Appending one new valid row leaves the other rows as they were. */
    twostate lemma AppendedRow(new u: Utilisateur)
      requires old(Valid()) && u.Valid() && u !in old(utilisateurs)
      requires utilisateurs == old(utilisateurs) + [u]
      requires forall j :: 0 <= j < |old(utilisateurs)| ==> unchanged(old(utilisateurs)[j])
      ensures Valid()
      ensures Snapshot() == old(Snapshot()) + [u.State()]
    {
      forall j | 0 <= j < |old(utilisateurs)| ensures utilisateurs[j].State() == old(utilisateurs[j].State()) {
      }
    }

    /** POST /api/auth/register: refuses a known e-mail; otherwise appends an
        unverified account holding a 24-hour verification token.  Hashing an
        empty password raises inside the handler's `try`, which rolls back
        and answers 400 with the exception's text.  A failed mail still
        leaves the account created. */
    method Register(email: string, password: string, now: int, token: string, mailSent: bool) returns (reply: Reply)
      requires Valid() && token != ""
      modifies this
      ensures Valid()
      ensures old(FindByEmail(email)).Some? ==>
                reply == Failure(400, "Cet email existe déjà") && utilisateurs == old(utilisateurs) && nextId == old(nextId)
      ensures old(FindByEmail(email)).None? && password == "" ==>
                reply == Failure(400, EMPTY_PASSWORD_ERROR) && utilisateurs == old(utilisateurs) && nextId == old(nextId)
      ensures old(FindByEmail(email)).None? && password != "" ==>
                && |utilisateurs| == |old(utilisateurs)| + 1
                && utilisateurs[..|old(utilisateurs)|] == old(utilisateurs)
                && fresh(utilisateurs[|old(utilisateurs)|])
                && Snapshot() == old(Snapshot()) + [AccountState(old(nextId), email, Hashed(password), false, None, None,
                                                                 Some(token), Some(now + VERIFICATION_TOKEN_LIFETIME))]
                && reply == Success(201, if mailSent then "Inscription réussie ! Vérifiez votre email pour activer votre compte."
                                         else "Inscription réussie ! Vérifiez votre email.")
    {
      if FindByEmail(email).Some? {
        return Failure(400, "Cet email existe déjà");
      }
      if password == "" {
        return Failure(400, EMPTY_PASSWORD_ERROR);
      }
      var u := new Utilisateur(nextId, email, password);
      var _ := u.GenerateVerificationToken(now, token);
      utilisateurs := utilisateurs + [u];
      nextId := nextId + 1;
      AppendedRow(u);
      reply := Success(201, if mailSent then "Inscription réussie ! Vérifiez votre email pour activer votre compte."
                            else "Inscription réussie ! Vérifiez votre email.");
    }

    /** POST /api/auth/login: 401 for an unknown e-mail or a wrong password,
        403 for a correct password on an unverified account. */
    method Login(email: string, password: string) returns (reply: Reply)
      ensures FindByEmail(email).None? ==> reply == Failure(401, "Email ou mot de passe incorrect")
      ensures FindByEmail(email).Some? ==>
                var u := utilisateurs[FindByEmail(email).value];
                reply == if !u.CheckPassword(password) then Failure(401, "Email ou mot de passe incorrect")
                         else if !u.email_verified then Failure(403, "Veuillez vérifier votre email avant de vous connecter")
                         else Success(200, "Connexion réussie")
      ensures reply.Success? <==>
                && FindByEmail(email).Some?
                && utilisateurs[FindByEmail(email).value].CheckPassword(password)
                && utilisateurs[FindByEmail(email).value].email_verified
    {
      var k := FindByEmail(email);
      if k.None? || !utilisateurs[k.value].CheckPassword(password) {
        return Failure(401, "Email ou mot de passe incorrect");
      }
      if !utilisateurs[k.value].email_verified {
        return Failure(403, "Veuillez vérifier votre email avant de vous connecter");
      }
      reply := Success(200, "Connexion réussie");
    }

    /** POST /api/auth/verify-email: the token selects the account; a
        successful check marks it verified and clears token and expiry. */
    method VerifyEmail(token: string, now: int) returns (reply: Reply)
      requires Valid()
      modifies utilisateurs
      ensures Valid() && utilisateurs == old(utilisateurs)
      ensures token == "" ==> reply == Failure(400, "Token manquant") && Snapshot() == old(Snapshot())
      ensures token != "" && old(FindByToken(token)).None? ==>
                reply == Failure(404, "Token invalide ou expiré") && Snapshot() == old(Snapshot())
      ensures token != "" && old(FindByToken(token)).Some? ==>
                var k := old(FindByToken(token)).value;
                var a := old(Snapshot())[k];
                if a.email_verified then
                  reply == Success(200, "Email déjà vérifié") && Snapshot() == old(Snapshot())
                else if now <= a.verification_token_expiration.value then
                  && reply == Success(200, "Email vérifié avec succès ! Vous pouvez maintenant vous connecter.")
                  && Snapshot() == old(Snapshot())[k := a.(email_verified := true, verification_token := None,
                                                           verification_token_expiration := None)]
                else
                  reply == Failure(400, "Token expiré. Demandez un nouveau lien de vérification.") && Snapshot() == old(Snapshot())
    {
      if token == "" {
        return Failure(400, "Token manquant");
      }
      var k := FindByToken(token);
      if k.None? {
        return Failure(404, "Token invalide ou expiré");
      }
      var u := utilisateurs[k.value];
      if u.email_verified {
        return Success(200, "Email déjà vérifié");
      }
      if u.VerifyEmailToken(token, now) {
        u.email_verified := true;
        u.verification_token := None;
        u.verification_token_expiration := None;
        OnlyRowChanged(k.value);
        reply := Success(200, "Email vérifié avec succès ! Vous pouvez maintenant vous connecter.");
      } else {
        reply := Failure(400, "Token expiré. Demandez un nouveau lien de vérification.");
      }
    }

    /** POST /api/auth/resend-verification: an unknown e-mail gets a neutral
        200; a verified account is refused with 400; otherwise the token is
        replaced and the reply differs from the neutral one, so the
        account's existence shows despite the neutral message.  The new
        token is committed before the mail is attempted. */
    method ResendVerification(email: string, now: int, token: string, mailSent: bool) returns (reply: Reply)
      requires Valid() && token != ""
      modifies utilisateurs
      ensures Valid() && utilisateurs == old(utilisateurs)
      ensures email == "" ==> reply == Failure(400, "Email requis") && Snapshot() == old(Snapshot())
      ensures email != "" && old(FindByEmail(email)).None? ==>
                reply == Success(200, "Si cet email existe, un nouveau lien a été envoyé") && Snapshot() == old(Snapshot())
      ensures email != "" && old(FindByEmail(email)).Some? ==>
                var k := old(FindByEmail(email)).value;
                var a := old(Snapshot())[k];
                if a.email_verified then
                  reply == Failure(400, "Cet email est déjà vérifié") && Snapshot() == old(Snapshot())
                else
                  && Snapshot() == old(Snapshot())[k := a.(verification_token := Some(token),
                                                           verification_token_expiration := Some(now + VERIFICATION_TOKEN_LIFETIME))]
                  && reply == if mailSent then Success(200, "Un nouveau lien de vérification a été envoyé")
                              else Failure(500, "Erreur lors de l'envoi de l'email")
    {
      if email == "" {
        return Failure(400, "Email requis");
      }
      var k := FindByEmail(email);
      if k.None? {
        return Success(200, "Si cet email existe, un nouveau lien a été envoyé");
      }
      var u := utilisateurs[k.value];
      if u.email_verified {
        return Failure(400, "Cet email est déjà vérifié");
      }
      var _ := u.GenerateVerificationToken(now, token);
      OnlyRowChanged(k.value);
      reply := if mailSent then Success(200, "Un nouveau lien de vérification a été envoyé")
               else Failure(500, "Erreur lors de l'envoi de l'email");
    }

    /** POST /api/auth/forgot-password: an unknown e-mail gets a neutral 200;
        a known one gets a new six-digit code valid 15 minutes and a
        different reply, so the account's existence shows.  The code is
        committed before the mail is attempted, so it stays usable when the
        mail fails. */
    method ForgotPassword(email: string, now: int, draws: seq<int>, mailSent: bool) returns (reply: Reply)
      requires Valid()
      requires |draws| == RESET_CODE_LENGTH && forall i :: 0 <= i < |draws| ==> 0 <= draws[i] <= 9
      modifies utilisateurs
      ensures Valid() && utilisateurs == old(utilisateurs)
      ensures email == "" ==> reply == Failure(400, "Email requis") && Snapshot() == old(Snapshot())
      ensures email != "" && old(FindByEmail(email)).None? ==>
                reply == Success(200, "Si cet email existe, un code de réinitialisation a été envoyé")
                && Snapshot() == old(Snapshot())
      ensures email != "" && old(FindByEmail(email)).Some? ==>
                var k := old(FindByEmail(email)).value;
                && Snapshot() == old(Snapshot())[k := old(Snapshot())[k].(reset_code := Some(DigitString(draws)),
                                                                          reset_code_expiration := Some(now + RESET_CODE_LIFETIME))]
                && reply == if mailSent then Success(200, "Un code de vérification a été envoyé à votre adresse email")
                            else Failure(500, "Erreur lors de l'envoi de l'email. Veuillez réessayer.")
    {
      if email == "" {
        return Failure(400, "Email requis");
      }
      var k := FindByEmail(email);
      if k.None? {
        return Success(200, "Si cet email existe, un code de réinitialisation a été envoyé");
      }
      var u := utilisateurs[k.value];
      var _ := u.GenerateResetCode(now, draws);
      OnlyRowChanged(k.value);
      reply := if mailSent then Success(200, "Un code de vérification a été envoyé à votre adresse email")
               else Failure(500, "Erreur lors de l'envoi de l'email. Veuillez réessayer.");
    }

    /** POST /api/auth/verify-reset-code: only checks the code, never
        consumes it (no `modifies`). */
    method VerifyResetCode(email: string, code: string, now: int) returns (reply: Reply)
      requires Valid()
      ensures email == "" || code == "" ==> reply == Failure(400, "Email et code requis")
      ensures email != "" && code != "" && FindByEmail(email).None? ==> reply == Failure(404, "Email non trouvé")
      ensures email != "" && code != "" && FindByEmail(email).Some? ==>
                var u := utilisateurs[FindByEmail(email).value];
                var v := CheckResetCode(u.reset_code, u.reset_code_expiration, code, now);
                reply == if v == CodeAccepted then Success(200, "Code valide")
                         else CodeRejection(v, "Code expiré. Demandez un nouveau code")
      ensures reply.Success? <==>
                && email != "" && FindByEmail(email).Some?
                && var u := utilisateurs[FindByEmail(email).value];
                   u.reset_code == Some(code) && code != "" && now <= u.reset_code_expiration.value
    {
      if email == "" || code == "" {
        return Failure(400, "Email et code requis");
      }
      var k := FindByEmail(email);
      if k.None? {
        return Failure(404, "Email non trouvé");
      }
      var u := utilisateurs[k.value];
      var v := CheckResetCode(u.reset_code, u.reset_code_expiration, code, now);
      if v != CodeAccepted {
        return CodeRejection(v, "Code expiré. Demandez un nouveau code");
      }
      reply := Success(200, "Code valide");
    }

    /** POST /api/auth/reset-password-with-code: field and length checks come
        before the lookup; an accepted code sets the new password and clears
        the code and its expiry. */
    method ResetPasswordWithCode(email: string, code: string, password: string, now: int) returns (reply: Reply)
      requires Valid()
      modifies utilisateurs
      ensures Valid() && utilisateurs == old(utilisateurs) && Emails() == old(Emails())
      ensures reply.Failure? ==> Snapshot() == old(Snapshot())
      ensures email == "" || code == "" || password == "" ==> reply == Failure(400, "Tous les champs sont requis")
      ensures email != "" && code != "" && password != "" && |password| < MIN_PASSWORD_LENGTH ==>
                reply == Failure(400, "Le mot de passe doit contenir au moins 6 caractères")
      ensures email != "" && code != "" && |password| >= MIN_PASSWORD_LENGTH && old(FindByEmail(email)).None? ==>
                reply == Failure(404, "Email non trouvé")
      ensures email != "" && code != "" && |password| >= MIN_PASSWORD_LENGTH && old(FindByEmail(email)).Some? ==>
                var k := old(FindByEmail(email)).value;
                var a := old(Snapshot())[k];
                var v := CheckResetCode(a.reset_code, a.reset_code_expiration, code, now);
                if v == CodeAccepted then
                  && reply == Success(200, "Mot de passe réinitialisé avec succès")
                  && Snapshot() == old(Snapshot())[k := a.(mot_de_passe := Hashed(password), reset_code := None,
                                                           reset_code_expiration := None)]
                else
                  reply == CodeRejection(v, "Code expiré")
    {
      if email == "" || code == "" || password == "" {
        return Failure(400, "Tous les champs sont requis");
      }
      if |password| < MIN_PASSWORD_LENGTH {
        return Failure(400, "Le mot de passe doit contenir au moins 6 caractères");
      }
      var k := FindByEmail(email);
      if k.None? {
        return Failure(404, "Email non trouvé");
      }
      var u := utilisateurs[k.value];
      var v := CheckResetCode(u.reset_code, u.reset_code_expiration, code, now);
      if v != CodeAccepted {
        return CodeRejection(v, "Code expiré");
      }
      u.SetPassword(password);
      assert u.CheckPassword(password);
      u.reset_code := None;
      u.reset_code_expiration := None;
      OnlyRowChanged(k.value);
      reply := Success(200, "Mot de passe réinitialisé avec succès");
    }

    /** A reset code is accepted at most once: once a reset succeeded, the
        same e-mail and code meet "no active code", at any later time. */
    method ResetCodeIsSingleUse(email: string, code: string, password: string, now: int, later: int)
      returns (first: Reply, second: Reply)
      requires Valid()
      modifies utilisateurs
      ensures Valid()
      ensures first.Success? ==> second == Failure(400, "Aucun code de réinitialisation actif")
    {
      first := ResetPasswordWithCode(email, code, password, now);
      if first.Success? {
        var k := FindByEmail(email).value;
        assert Snapshot()[k].reset_code == None;
      }
      second := VerifyResetCode(email, code, later);
    }

    /** No two rows hold `token`: `secrets.token_urlsafe(32)` draws 256 bits. */
    ghost predicate TokenHeldOnce(token: string)
      reads this, utilisateurs
    {
      forall i, j :: 0 <= i < j < |utilisateurs| && utilisateurs[i].verification_token == Some(token) ==>
        utilisateurs[j].verification_token != Some(token)
    }

    /** A verification token is accepted at most once: after a successful
        verification the same token finds no account. */
    method VerificationTokenIsSingleUse(token: string, now: int, later: int) returns (first: Reply, second: Reply)
      requires Valid() && TokenHeldOnce(token)
      modifies utilisateurs
      ensures Valid()
      ensures first.Success? && first.message != "Email déjà vérifié" ==> second == Failure(404, "Token invalide ou expiré")
    {
      ghost var k := FindByToken(token);
      first := VerifyEmail(token, now);
      if first.Success? && first.message != "Email déjà vérifié" {
        forall j | 0 <= j < |utilisateurs| ensures utilisateurs[j].verification_token != Some(token) {
          assert Snapshot()[j].verification_token == utilisateurs[j].verification_token;
        }
      }
      second := VerifyEmail(token, later);
    }
  }

  /** One unverified account registered under "a@example.org". */
  method OneAccount(now: int) returns (accounts: Accounts)
    ensures fresh(accounts) && accounts.Valid() && |accounts.utilisateurs| == 1
    ensures fresh(accounts.utilisateurs[0])
    ensures accounts.FindByEmail("a@example.org") == Some(0) && accounts.FindByEmail("b@example.org") == None
    ensures !accounts.utilisateurs[0].email_verified
  {
    accounts := new Accounts();
    var _ := accounts.Register("a@example.org", "secret", now, "token-1", true);
    assert accounts.utilisateurs[0].State() == accounts.Snapshot()[0];
    assert accounts.Emails() == ["a@example.org"];
    assert "b@example.org" != "a@example.org";
  }

  /** forgot-password answers a registered e-mail differently from an
      unknown one, whether or not the mail goes out: the neutral message
      does not hide the account. */
  method ResetRevealsAccount(now: int, draws: seq<int>, mailSent: bool) returns (unknown: Reply, known: Reply)
    requires |draws| == RESET_CODE_LENGTH && forall i :: 0 <= i < |draws| ==> 0 <= draws[i] <= 9
    ensures unknown == Success(200, "Si cet email existe, un code de réinitialisation a été envoyé")
    ensures known != unknown
  {
    var accounts := OneAccount(now);
    unknown := accounts.ForgotPassword("b@example.org", now, draws, mailSent);
    assert accounts.utilisateurs[0].email == "a@example.org" by {
      assert accounts.utilisateurs[0].State() == accounts.Snapshot()[0];
    }
    assert accounts.Emails() == ["a@example.org"];
    known := accounts.ForgotPassword("a@example.org", now, draws, mailSent);
  }

  /** resend-verification answers an unverified registered e-mail
      differently from an unknown one, whether or not the mail goes out. */
  method ResendRevealsAccount(now: int, mailSent: bool) returns (unknown: Reply, known: Reply)
    ensures unknown == Success(200, "Si cet email existe, un nouveau lien a été envoyé")
    ensures known != unknown
  {
    var accounts := OneAccount(now);
    unknown := accounts.ResendVerification("b@example.org", now, "token-2", mailSent);
    assert accounts.utilisateurs[0].State() == accounts.Snapshot()[0];
    assert accounts.Emails() == ["a@example.org"];
    known := accounts.ResendVerification("a@example.org", now, "token-2", mailSent);
  }
}
