/** The persistent entities of models.py.  An `Utilisateur` is an object
    whose methods assign its own fields, so it is a class; the catalogue rows
    (`Livre`, `Membre`, `Emprunt`, `Amende`) are values kept in the tables of
    Ledger.Library.  Instants of the credential flows are integer seconds,
    loan dates are integer day numbers, and money is integer cents. */
module Models {
  import opened Common

  /** `timedelta(minutes=15)` and `timedelta(hours=24)`, in seconds. */
  const RESET_CODE_LIFETIME: int := 15 * 60
  const VERIFICATION_TOKEN_LIFETIME: int := 24 * 60 * 60
  const RESET_CODE_LENGTH: nat := 6

  /** bcrypt as an ideal hash: checking a password against the stored hash
      succeeds exactly for the password that was hashed. */
  datatype PasswordHash = Hashed(password: string)

  /** The `ValueError` message flask_bcrypt's `generate_password_hash`
      raises for an empty password. */
  const EMPTY_PASSWORD_ERROR: string := "Password must be non-empty."

  predicate IsDigit(c: char) {
    '0' <= c <= '9'
  }

  predicate IsResetCode(s: string) {
    |s| == RESET_CODE_LENGTH && forall i :: 0 <= i < |s| ==> IsDigit(s[i])
  }

  /** `''.join([str(d) for d in draws])` for draws of `random.randint(0, 9)`. */
  function DigitString(draws: seq<int>): (s: string)
    requires forall i :: 0 <= i < |draws| ==> 0 <= draws[i] <= 9
    ensures |s| == |draws|
    ensures forall i :: 0 <= i < |s| ==> IsDigit(s[i]) && s[i] as int - '0' as int == draws[i]
  {
    if draws == [] then ""
    else [('0' as int + draws[0]) as char] + DigitString(draws[1..])
  }

  /** Different draws give different codes, so a code names its draws. */
  lemma DigitStringInjective(a: seq<int>, b: seq<int>)
    requires forall i :: 0 <= i < |a| ==> 0 <= a[i] <= 9
    requires forall i :: 0 <= i < |b| ==> 0 <= b[i] <= 9
    requires DigitString(a) == DigitString(b)
    ensures a == b
  {
    var s := DigitString(a);
    assert |a| == |s| == |b|;
    forall i | 0 <= i < |a| ensures a[i] == b[i] {
      assert s[i] as int - '0' as int == a[i];
      assert DigitString(b)[i] as int - '0' as int == b[i];
    }
  }

  /** The fields of one account row, as a value. */
  datatype AccountState = AccountState(
    id_utilisateur: nat,
    email: string,
    mot_de_passe: PasswordHash,
    email_verified: bool,
    reset_code: Option<string>,
    reset_code_expiration: Option<int>,
    verification_token: Option<string>,
    verification_token_expiration: Option<int>)

  class Utilisateur {
    const id_utilisateur: nat
    var email: string
    var mot_de_passe: PasswordHash
    var email_verified: bool
    var reset_code: Option<string>
    var reset_code_expiration: Option<int>
    var verification_token: Option<string>
    var verification_token_expiration: Option<int>

    ghost function State(): AccountState
      reads this
    {
      AccountState(id_utilisateur, email, mot_de_passe, email_verified, reset_code, reset_code_expiration,
                   verification_token, verification_token_expiration)
    }

    /** A code and its expiry are set and cleared together, and so are a
        token and its expiry; a stored code is six digits, a stored token is
        never empty (`secrets.token_urlsafe(32)` has 43 characters). */
    ghost predicate Valid()
      reads this
    {
      && (reset_code.Some? <==> reset_code_expiration.Some?)
      && (reset_code.Some? ==> IsResetCode(reset_code.value))
      && (verification_token.Some? <==> verification_token_expiration.Some?)
      && (verification_token.Some? ==> verification_token.value != "")
    }

    /** The row built by the register handler: not verified, no code, no token.
        Hashing refuses an empty password, so the handler checks for it first. */
    constructor (id: nat, email: string, password: string)
      requires password != ""
      ensures Valid()
      ensures id_utilisateur == id && this.email == email && CheckPassword(password)
      ensures !email_verified
      ensures reset_code.None? && reset_code_expiration.None?
      ensures verification_token.None? && verification_token_expiration.None?
    {
      id_utilisateur := id;
      this.email := email;
      mot_de_passe := Hashed(password);
      email_verified := false;
      reset_code, reset_code_expiration := None, None;
      verification_token, verification_token_expiration := None, None;
    }

    /** `check_password`: true for the password last hashed and no other. */
    predicate CheckPassword(password: string)
      reads this
      ensures CheckPassword(password) <==> password == mot_de_passe.password
    {
      mot_de_passe == Hashed(password)
    }

    /** `set_password`; hashing refuses an empty password. */
    method SetPassword(password: string)
      requires password != ""
      modifies this`mot_de_passe
      ensures forall p :: CheckPassword(p) <==> p == password
    {
      mot_de_passe := Hashed(password);
    }

    /** Stores and returns a fresh six-digit code valid for 15 minutes from
        `now`; any previous code is replaced. `draws` are the six values of
        `random.randint(0, 9)`. */
    method GenerateResetCode(now: int, draws: seq<int>) returns (code: string)
      requires Valid()
      requires |draws| == RESET_CODE_LENGTH && forall i :: 0 <= i < |draws| ==> 0 <= draws[i] <= 9
      modifies this`reset_code, this`reset_code_expiration
      ensures Valid()
      ensures IsResetCode(code) && code == DigitString(draws)
      ensures reset_code == Some(code)
      ensures reset_code_expiration == Some(now + RESET_CODE_LIFETIME)
    {
      reset_code := Some(DigitString(draws));
      reset_code_expiration := Some(now + RESET_CODE_LIFETIME);
      code := reset_code.value;
    }

    /** Stores and returns `token` (the value of `secrets.token_urlsafe(32)`)
        with an expiry 24 hours from `now`; any previous token is replaced. */
    method GenerateVerificationToken(now: int, token: string) returns (t: string)
      requires Valid()
      requires token != ""
      modifies this`verification_token, this`verification_token_expiration
      ensures Valid()
      ensures t == token && verification_token == Some(t)
      ensures verification_token_expiration == Some(now + VERIFICATION_TOKEN_LIFETIME)
    {
      verification_token := Some(token);
      verification_token_expiration := Some(now + VERIFICATION_TOKEN_LIFETIME);
      t := token;
    }

    /** False without a (non-empty) token or without an expiry; false when
        `now` is strictly after the expiry, so the expiry instant itself is
        still accepted; otherwise true exactly when the tokens are equal. */
    predicate VerifyEmailToken(token: string, now: int)
      reads this
      ensures VerifyEmailToken(token, now) <==>
                && verification_token.Some? && verification_token.value != ""
                && verification_token_expiration.Some?
                && now <= verification_token_expiration.value
                && verification_token.value == token
    {
      if verification_token.None? || verification_token.value == "" || verification_token_expiration.None? then false
      else if now > verification_token_expiration.value then false
      else verification_token.value == token
    }
  }

  // ---- catalogue rows ----

  /** Column defaults: `nombre_exemplaires = disponibles = 1`. */
  const DEFAULT_EXEMPLAIRES: int := 1
  /** Column default of `Membre.statut`, and the only status allowed to borrow. */
  const MEMBRE_ACTIF: string := "actif"

  /** Neither count is constrained by the schema: `disponibles` is an
      ordinary integer column, independent of `nombre_exemplaires`. */
  datatype Livre = Livre(titre: string, auteur: string, nombre_exemplaires: int, disponibles: int, id_utilisateur: nat)

  datatype Membre = Membre(nom: string, prenom: string, email: string, statut: string, id_utilisateur: nat)

  /** The two values the code stores in `Emprunt.statut`: 'en_cours' (the
      column default) and 'retourne'. */
  datatype EmpruntStatut = EnCours | Retourne

  datatype Emprunt = Emprunt(
    id_livre: nat,
    id_membre: nat,
    date_emprunt: int,
    date_retour_prevue: int,
    date_retour_reelle: Option<int>,
    statut: EmpruntStatut)

  /** The two values the code stores in `Amende.statut`: 'impayee' (the
      column default) and 'payee'. */
  datatype AmendeStatut = Impayee | Payee

  /** `montant` is in cents. */
  datatype Amende = Amende(id_emprunt: nat, montant: int, statut: AmendeStatut, date_creation: int)
}
