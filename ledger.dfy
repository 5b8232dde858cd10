/** The loan ledger of app.py: creating books and members, checking a book
    out, returning it (with the late fine) and paying a fine.  The database
    is four in-memory tables keyed by auto-incremented ids; every row belongs
    to one account (`id_utilisateur`), directly for books and members, through
    the book for loans and through the loan for fines.  `caller` is
    `current_user.id_utilisateur`; `today` is the day number of
    `datetime.utcnow()`; amounts are cents. */
module Ledger {
  import opened Common
  import opened Models

  /** `timedelta(days=14)` */
  const LOAN_DAYS: int := 14
  /** `0.50` per late day */
  const FINE_CENTS_PER_DAY: int := 50

  /** The fine for a loan due on day `due` and returned on day `returned`:
      one exists exactly when the return is strictly late, and it charges
      every late day. */
  function LateFine(due: int, returned: int): (f: Option<int>)
    ensures f.Some? <==> returned > due
    ensures f.Some? ==> f.value == (returned - due) * FINE_CENTS_PER_DAY
    ensures f.Some? ==> f.value >= FINE_CENTS_PER_DAY
  {
    if returned > due then Some((returned - due) * FINE_CENTS_PER_DAY) else None
  }

  /** Returning later never costs less. */
  lemma LateFineMonotone(due: int, r1: int, r2: int)
    requires r1 <= r2
    ensures LateFine(due, r1).GetOr(0) <= LateFine(due, r2).GetOr(0)
  {
  }

  class Library {
    var livres: map<nat, Livre>
    var membres: map<nat, Membre>
    var emprunts: map<nat, Emprunt>
    var amendes: map<nat, Amende>
    var nextLivre: nat
    var nextMembre: nat
    var nextEmprunt: nat
    var nextAmende: nat

    /** Every id in use is below the next one to be assigned. */
    ghost predicate Valid()
      reads this
    {
      && (forall id :: id in livres ==> id < nextLivre)
      && (forall id :: id in membres ==> id < nextMembre)
      && (forall id :: id in emprunts ==> id < nextEmprunt)
      && (forall id :: id in amendes ==> id < nextAmende)
    }

    constructor ()
      ensures Valid()
      ensures livres == map[] && membres == map[] && emprunts == map[] && amendes == map[]
    {
      livres, membres, emprunts, amendes := map[], map[], map[], map[];
      nextLivre, nextMembre, nextEmprunt, nextAmende := 1, 1, 1, 1;
    }

    /** `Livre.query.filter_by(id_livre=id, id_utilisateur=caller).first()` finds a row. */
    predicate OwnsLivre(caller: nat, id: nat)
      reads this
    {
      id in livres && livres[id].id_utilisateur == caller
    }

    predicate OwnsMembre(caller: nat, id: nat)
      reads this
    {
      id in membres && membres[id].id_utilisateur == caller
    }

    /** The loan exists and its book (joined on `id_livre`) belongs to `caller`. */
    predicate OwnsEmprunt(caller: nat, id: nat)
      reads this
    {
      id in emprunts && OwnsLivre(caller, emprunts[id].id_livre)
    }

    /** The fine exists and its loan's book belongs to `caller`. */
    predicate OwnsAmende(caller: nat, id: nat)
      reads this
    {
      id in amendes && OwnsEmprunt(caller, amendes[id].id_emprunt)
    }

    /** POST /api/livres: both counts start at the requested number of
        copies, 1 when none is given; nothing checks that it is positive. */
    method CreateLivre(caller: nat, titre: string, auteur: string, nombre: Option<int>) returns (reply: Reply)
      requires Valid()
      modifies this
      ensures Valid()
      ensures reply == Row(201, old(nextLivre)) && old(nextLivre) !in old(livres)
      ensures var n := nombre.GetOr(DEFAULT_EXEMPLAIRES);
              livres == old(livres)[old(nextLivre) := Livre(titre, auteur, n, n, caller)]
      ensures livres[old(nextLivre)].disponibles == livres[old(nextLivre)].nombre_exemplaires
      ensures membres == old(membres) && emprunts == old(emprunts) && amendes == old(amendes)
    {
      var n := nombre.GetOr(DEFAULT_EXEMPLAIRES);
      var id := nextLivre;
      livres := livres[id := Livre(titre, auteur, n, n, caller)];
      nextLivre := nextLivre + 1;
      reply := Row(201, id);
    }

    /** POST /api/membres: a new member is 'actif'. */
    method CreateMembre(caller: nat, nom: string, prenom: string, email: string) returns (reply: Reply)
      requires Valid()
      modifies this
      ensures Valid()
      ensures reply == Row(201, old(nextMembre)) && old(nextMembre) !in old(membres)
      ensures membres == old(membres)[old(nextMembre) := Membre(nom, prenom, email, MEMBRE_ACTIF, caller)]
      ensures livres == old(livres) && emprunts == old(emprunts) && amendes == old(amendes)
    {
      var id := nextMembre;
      membres := membres[id := Membre(nom, prenom, email, MEMBRE_ACTIF, caller)];
      nextMembre := nextMembre + 1;
      reply := Row(201, id);
    }

    /** POST /api/emprunts: the book must be the caller's with a copy
        available, then the member must be the caller's and 'actif'; on
        success one copy is taken and an ongoing loan due in 14 days is
        recorded.  A refusal changes nothing. */
    method CreateEmprunt(caller: nat, idLivre: nat, idMembre: nat, today: int) returns (reply: Reply)
      requires Valid()
      modifies this
      ensures Valid()
      ensures !old(OwnsLivre(caller, idLivre)) || old(livres[idLivre].disponibles) <= 0 ==>
                reply == Failure(400, "Livre non disponible") && unchanged(this)
      ensures old(OwnsLivre(caller, idLivre)) && old(livres[idLivre].disponibles) > 0
              && (!old(OwnsMembre(caller, idMembre)) || old(membres[idMembre].statut) != MEMBRE_ACTIF) ==>
                reply == Failure(400, "Membre invalide") && unchanged(this)
      ensures reply.Row? <==> old(OwnsLivre(caller, idLivre)) && old(livres[idLivre].disponibles) > 0
                              && old(OwnsMembre(caller, idMembre)) && old(membres[idMembre].statut) == MEMBRE_ACTIF
      ensures reply.Row? ==>
                && reply == Row(201, old(nextEmprunt)) && old(nextEmprunt) !in old(emprunts)
                && emprunts == old(emprunts)[old(nextEmprunt) := Emprunt(idLivre, idMembre, today, today + LOAN_DAYS, None, EnCours)]
                && livres == old(livres)[idLivre := old(livres[idLivre]).(disponibles := old(livres[idLivre].disponibles) - 1)]
                && membres == old(membres) && amendes == old(amendes)
    {
      if idLivre !in livres || livres[idLivre].id_utilisateur != caller || livres[idLivre].disponibles <= 0 {
        return Failure(400, "Livre non disponible");
      }
      if idMembre !in membres || membres[idMembre].id_utilisateur != caller || membres[idMembre].statut != MEMBRE_ACTIF {
        return Failure(400, "Membre invalide");
      }
      var id := nextEmprunt;
      emprunts := emprunts[id := Emprunt(idLivre, idMembre, today, today + LOAN_DAYS, None, EnCours)];
      nextEmprunt := nextEmprunt + 1;
      var livre := livres[idLivre];
      livres := livres[idLivre := livre.(disponibles := livre.disponibles - 1)];
      reply := Row(201, id);
    }

    /** POST /api/emprunts/<id>/retour: marks the loan returned today, puts
        one copy of its book back and, when the return is late, records an
        unpaid fine of 50 cents per late day.  Nothing refuses a loan that
        was already returned. */
    method RetournerLivre(caller: nat, idEmprunt: nat, today: int) returns (reply: Reply)
      requires Valid()
      modifies this
      ensures Valid()
      ensures !old(OwnsEmprunt(caller, idEmprunt)) ==> reply == Failure(404, "Emprunt non trouvé") && unchanged(this)
      ensures old(OwnsEmprunt(caller, idEmprunt)) ==>
                var e := old(emprunts[idEmprunt]);
                && reply == Row(200, idEmprunt)
                && emprunts == old(emprunts)[idEmprunt := e.(date_retour_reelle := Some(today), statut := Retourne)]
                && livres == old(livres)[e.id_livre := old(livres[e.id_livre]).(disponibles := old(livres[e.id_livre].disponibles) + 1)]
                && membres == old(membres)
                && old(nextAmende) !in old(amendes)
                && amendes == (match LateFine(e.date_retour_prevue, today)
                               case None => old(amendes)
                               case Some(m) => old(amendes)[old(nextAmende) := Amende(idEmprunt, m, Impayee, today)])
    {
      if idEmprunt !in emprunts || emprunts[idEmprunt].id_livre !in livres
         || livres[emprunts[idEmprunt].id_livre].id_utilisateur != caller {
        return Failure(404, "Emprunt non trouvé");
      }
      var e := emprunts[idEmprunt];
      emprunts := emprunts[idEmprunt := e.(date_retour_reelle := Some(today), statut := Retourne)];
      if today > e.date_retour_prevue {
        var joursRetard := today - e.date_retour_prevue;
        amendes := amendes[nextAmende := Amende(idEmprunt, joursRetard * FINE_CENTS_PER_DAY, Impayee, today)];
        nextAmende := nextAmende + 1;
      }
      var livre := livres[e.id_livre];
      livres := livres[e.id_livre := livre.(disponibles := livre.disponibles + 1)];
      reply := Row(200, idEmprunt);
    }

    /** POST /api/amendes/<id>/payer: sets the status to 'payee' and
        nothing else, whatever the status was. */
    method PayerAmende(caller: nat, idAmende: nat) returns (reply: Reply)
      requires Valid()
      modifies this
      ensures Valid()
      ensures !old(OwnsAmende(caller, idAmende)) ==> reply == Failure(404, "Amende non trouvée") && unchanged(this)
      ensures old(OwnsAmende(caller, idAmende)) ==>
                && reply == Row(200, idAmende)
                && amendes == old(amendes)[idAmende := old(amendes[idAmende]).(statut := Payee)]
                && livres == old(livres) && membres == old(membres) && emprunts == old(emprunts)
    {
      if !OwnsAmende(caller, idAmende) {
        return Failure(404, "Amende non trouvée");
      }
      amendes := amendes[idAmende := amendes[idAmende].(statut := Payee)];
      reply := Row(200, idAmende);
    }

    /** Some loan refers to a book or a member that `owner` owns. */
    predicate LoanRefersTo(owner: nat)
      reads this
    {
      exists id :: id in emprunts &&
        ((emprunts[id].id_livre in livres && livres[emprunts[id].id_livre].id_utilisateur == owner) ||
         (emprunts[id].id_membre in membres && membres[emprunts[id].id_membre].id_utilisateur == owner))
    }

    /** Deleting an account (cascade 'all, delete-orphan' on
        `Utilisateur.livres` and `Utilisateur.membres`) deletes every book
        and every member it owns and no other row.  `Livre.emprunts` and
        `Membre.emprunts` do not cascade, so the ORM would set a referring
        loan's `id_livre` or `id_membre` to NULL; both columns are NOT NULL,
        so the flush fails and the whole delete is rolled back. */
    method CascadeDeleteUtilisateur(owner: nat) returns (ok: bool)
      requires Valid()
      modifies this
      ensures Valid()
      ensures ok <==> !old(LoanRefersTo(owner))
      ensures !ok ==> unchanged(this)
      ensures ok ==> livres == map id | id in old(livres) && old(livres)[id].id_utilisateur != owner :: old(livres)[id]
      ensures ok ==> membres == map id | id in old(membres) && old(membres)[id].id_utilisateur != owner :: old(membres)[id]
      ensures ok ==> forall id :: id in livres ==> livres[id].id_utilisateur != owner
      ensures ok ==> forall id :: id in membres ==> membres[id].id_utilisateur != owner
      ensures ok ==> emprunts == old(emprunts) && amendes == old(amendes)
      ensures ok ==> forall id :: id in emprunts && emprunts[id].id_livre in old(livres) ==> emprunts[id].id_livre in livres
      ensures ok ==> forall id :: id in emprunts && emprunts[id].id_membre in old(membres) ==> emprunts[id].id_membre in membres
    {
      if LoanRefersTo(owner) {
        return false;
      }
      livres := map id | id in livres && livres[id].id_utilisateur != owner :: livres[id];
      membres := map id | id in membres && membres[id].id_utilisateur != owner :: membres[id];
      ok := true;
    }
  }

  /** A book with two copies: two checkouts succeed, the third finds no
      copy left. */
  method TwoCopiesScenario(caller: nat, today: int) returns (first: Reply, second: Reply, third: Reply)
    ensures first.Row? && second.Row? && first != second
    ensures third == Failure(400, "Livre non disponible")
  {
    var lib := new Library();
    var livre := lib.CreateLivre(caller, "Titre", "Auteur", Some(2));
    var membre := lib.CreateMembre(caller, "Nom", "Prenom", "membre@example.org");
    first := lib.CreateEmprunt(caller, livre.id, membre.id, today);
    second := lib.CreateEmprunt(caller, livre.id, membre.id, today);
    third := lib.CreateEmprunt(caller, livre.id, membre.id, today);
  }

  /** A loan due 14 days ago and returned today yields an unpaid fine of
      7.00, and paying it twice leaves it paid. */
  method LateReturnScenario(caller: nat, today: int) returns (fine: Amende, paidTwice: Amende)
    ensures fine.montant == 700 && fine.statut == Impayee
    ensures paidTwice == fine.(statut := Payee)
  {
    var lib := new Library();
    var livre := lib.CreateLivre(caller, "Titre", "Auteur", None);
    var membre := lib.CreateMembre(caller, "Nom", "Prenom", "membre@example.org");
    var loan := lib.CreateEmprunt(caller, livre.id, membre.id, today - 2 * LOAN_DAYS);
    var idAmende := lib.nextAmende;
    var _ := lib.RetournerLivre(caller, loan.id, today);
    fine := lib.amendes[idAmende];
    var _ := lib.PayerAmende(caller, idAmende);
    var _ := lib.PayerAmende(caller, idAmende);
    paidTwice := lib.amendes[idAmende];
  }

  /** Returning the same loan twice is accepted both times and puts two
      copies back, so `disponibles` can exceed `nombre_exemplaires`. */
  method DoubleReturnScenario(caller: nat, today: int) returns (copies: int, available: int)
    ensures copies == 1 && available == 2
  {
    var lib := new Library();
    var livre := lib.CreateLivre(caller, "Titre", "Auteur", None);
    var membre := lib.CreateMembre(caller, "Nom", "Prenom", "membre@example.org");
    var loan := lib.CreateEmprunt(caller, livre.id, membre.id, today);
    var _ := lib.RetournerLivre(caller, loan.id, today);
    var _ := lib.RetournerLivre(caller, loan.id, today);
    copies := lib.livres[livre.id].nombre_exemplaires;
    available := lib.livres[livre.id].disponibles;
  }

  /** An account whose book is on loan cannot be deleted: the delete is
      rolled back and the book stays. */
  method LoanBlocksDeleteScenario(caller: nat, today: int) returns (deleted: bool, bookKept: bool)
    ensures !deleted && bookKept
  {
    var lib := new Library();
    var livre := lib.CreateLivre(caller, "Titre", "Auteur", None);
    var membre := lib.CreateMembre(caller, "Nom", "Prenom", "membre@example.org");
    var loan := lib.CreateEmprunt(caller, livre.id, membre.id, today);
    assert lib.emprunts[loan.id].id_livre == livre.id;
    deleted := lib.CascadeDeleteUtilisateur(caller);
    bookKept := livre.id in lib.livres;
  }
}
