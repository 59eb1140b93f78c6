/**
  The ledger and the corpus as the one database they are: they share the cards, and a training image's
  reference to its card is a row of both.
 */
module Database {
  import opened Prelude
  import Ledger
  import Corpus

  type Id = string

  datatype Tables = Tables(ledger: Ledger.Tables, corpus: Corpus.Tables)

  const EMPTY := Tables(Ledger.EMPTY, Corpus.EMPTY)

  /** Cards are written in the ledger and training images in the corpus. */
  datatype AnyStatement = InLedger(ledger: Ledger.Statement) | InCorpus(corpus: Corpus.Statement)

  type Statement = s: AnyStatement | IsOwn(s) witness InCorpus(Corpus.DeleteMember("", ""))

  predicate IsOwn(s: AnyStatement) {
    match s
    case InLedger(own) => !own.OnTrainingImages?
    case InCorpus(own) => !own.InsertCard? && !own.DeleteCard?
  }

  /** What the statement asks of the ledger. */
  function InLedgerTerms(s: Statement): Option<Ledger.Statement> {
    match s
    case InLedger(own) => Some(own)
    case InCorpus(InsertImage(id, row)) => Some(Ledger.OnTrainingImages(Ledger.Insert(id, row.card)))
    case InCorpus(UpdateImage(id, row)) => Some(Ledger.OnTrainingImages(Ledger.Update(id, row.card)))
    case InCorpus(DeleteImage(id)) => Some(Ledger.OnTrainingImages(Ledger.Delete(id)))
    case _ => None
  }

  /** What it asks of the corpus. */
  function InCorpusTerms(s: Statement): Option<Corpus.Statement> {
    match s
    case InCorpus(own) => Some(own)
    case InLedger(OnCards(Insert(id, _))) => Some(Corpus.InsertCard(id))
    case InLedger(OnCards(Delete(id))) => Some(Corpus.DeleteCard(id))
    case _ => None
  }

  predicate Refused(d: Tables, s: Statement) {
    || (InLedgerTerms(s).Some? && Ledger.Refused(d.ledger, InLedgerTerms(s).value))
    || (InCorpusTerms(s).Some? && Corpus.Refused(d.corpus, InCorpusTerms(s).value))
  }

  function LedgerAfter(t: Ledger.Tables, s: Option<Ledger.Statement>): Ledger.Tables {
    if s.Some? then Ledger.Apply(t, s.value) else t
  }

  function CorpusAfter(t: Corpus.Tables, s: Option<Corpus.Statement>): Corpus.Tables {
    if s.Some? then Corpus.Apply(t, s.value) else t
  }

  function Apply(d: Tables, s: Statement): Tables {
    if Refused(d, s) then d
    else Tables(LedgerAfter(d.ledger, InLedgerTerms(s)), CorpusAfter(d.corpus, InCorpusTerms(s)))
  }

  function Run(d: Tables, statements: seq<Statement>): Tables
    decreases |statements|
  {
    if statements == [] then d else Run(Apply(d, statements[0]), statements[1..])
  }

  // ----- The two halves agree

  function CardsShown(corpus: Corpus.Tables): map<Id, Option<Id>> {
    map i | i in corpus.images :: corpus.images[i].card
  }

  predicate Agree(d: Tables) {
    d.corpus.cards == d.ledger.cards.Keys && d.ledger.referrers.trainingImages == CardsShown(d.corpus)
  }

  ghost predicate Integrity(d: Tables) {
    Ledger.Integrity(d.ledger) && Corpus.Integrity(d.corpus) && Agree(d)
  }

  /**
    Each half decides alone what is written in it: when the ledger refuses a card, or the corpus an image,
    the statement is refused, and when it accepts one the other half has no objection.
   */
  lemma OwnersDecide(d: Tables, s: Statement)
    requires Agree(d)
    ensures Refused(d, s)
            <==> if s.InLedger? then Ledger.Refused(d.ledger, s.ledger) else Corpus.Refused(d.corpus, s.corpus)
  {
    match s
    case InLedger(own) =>
      if own.OnCards? { LedgerDecidesCards(d, own.cards); }
    case InCorpus(own) =>
      if own.InsertImage? || own.UpdateImage? { CorpusDecidesImages(d, own); }
  }

  lemma LedgerDecidesCards(d: Tables, w: Ledger.Write<Ledger.Card>)
    requires Agree(d)
    ensures w.Insert? && Corpus.Refused(d.corpus, Corpus.InsertCard(w.id))
            ==> Ledger.Refused(d.ledger, Ledger.OnCards(w))
    ensures w.Delete? && Corpus.Refused(d.corpus, Corpus.DeleteCard(w.id))
            ==> Ledger.Refused(d.ledger, Ledger.OnCards(w))
  {
    if w.Delete? && Corpus.ShowsCard(d.corpus, w.id) {
      var i :| i in d.corpus.images && d.corpus.images[i].card == Some(w.id);
      assert d.ledger.referrers.trainingImages[i] == Some(w.id);
      assert Ledger.CardReferred(d.ledger.referrers, w.id);
    }
  }

  lemma CorpusDecidesImages(d: Tables, own: Corpus.Statement)
    requires Agree(d) && (own.InsertImage? || own.UpdateImage?)
    ensures Ledger.Refused(d.ledger, InLedgerTerms(InCorpus(own)).value) ==> Corpus.Refused(d.corpus, own)
  {
    assert own.row.card.Some? && own.row.card.value !in d.ledger.cards
           ==> !Corpus.ImageKeysHold(d.corpus.cards, d.corpus.copies.Keys, own.row);
  }

  // ----- Runs

  lemma {:induction false} EveryRunKeepsIntegrity(d: Tables, statements: seq<Statement>)
    requires Integrity(d)
    ensures Integrity(Run(d, statements))
    decreases |statements|
  {
    hide Integrity, Apply;
    if statements != [] {
      ApplyKeepsIntegrity(d, statements[0]);
      EveryRunKeepsIntegrity(Apply(d, statements[0]), statements[1..]);
    }
  }

  lemma ApplyKeepsIntegrity(d: Tables, s: Statement)
    requires Integrity(d)
    ensures Integrity(Apply(d, s))
  {
    hide Ledger.Integrity, Corpus.Integrity, Agree;
    if !Refused(d, s) {
      if InLedgerTerms(s).Some? { Ledger.ApplyKeepsIntegrity(d.ledger, InLedgerTerms(s).value); }
      if InCorpusTerms(s).Some? { Corpus.ApplyKeepsIntegrity(d.corpus, InCorpusTerms(s).value); }
      ApplyKeepsAgreement(d, s);
    }
  }

  lemma ApplyKeepsAgreement(d: Tables, s: Statement)
    requires Agree(d) && !Refused(d, s)
    ensures Agree(Apply(d, s))
  {
    LedgerWritesItsCards(d, s);
    CorpusWritesItsImages(d, s);
    hide Apply, Refused;
  }

  lemma LedgerWritesItsCards(d: Tables, s: Statement)
    requires Agree(d) && !Refused(d, s)
    ensures Apply(d, s).corpus.cards == Apply(d, s).ledger.cards.Keys
  {
    hide Ledger.Refused, Corpus.Refused;
    match s
    case InLedger(own) =>
      if own.OnCards? {
        CardWritesAgree(d, own.cards);
      } else {
        Ledger.OthersLeaveCardsAlone(d.ledger, own);
      }
    case InCorpus(own) =>
      Corpus.OthersLeaveCardsAlone(d.corpus, own);
      if InLedgerTerms(s).Some? { Ledger.OthersLeaveCardsAlone(d.ledger, InLedgerTerms(s).value); }
    hide Ledger.Apply, Corpus.Apply;
  }

  lemma CardWritesAgree(d: Tables, w: Ledger.Write<Ledger.Card>)
    requires Agree(d) && !Refused(d, InLedger(Ledger.OnCards(w)))
    ensures var s := InLedger(Ledger.OnCards(w));
            CorpusAfter(d.corpus, InCorpusTerms(s)).cards == Ledger.Apply(d.ledger, Ledger.OnCards(w)).cards.Keys
  {
    hide Ledger.Refused, Corpus.Refused, Ledger.WithoutLinksTo;
    assert Ledger.Apply(d.ledger, Ledger.OnCards(w)).cards == Ledger.Written(d.ledger.cards, w);
    hide Ledger.Apply;
  }

  lemma CorpusWritesItsImages(d: Tables, s: Statement)
    requires Agree(d) && !Refused(d, s)
    ensures Apply(d, s).ledger.referrers.trainingImages == CardsShown(Apply(d, s).corpus)
  {
    hide Ledger.Refused, Corpus.Refused;
    match s
    case InLedger(own) =>
      Ledger.OthersLeaveTrainingImagesAlone(d.ledger, own);
      if InCorpusTerms(s).Some? { Corpus.OthersLeaveImagesAlone(d.corpus, InCorpusTerms(s).value); }
      hide Ledger.Apply, Corpus.Apply;
    case InCorpus(own) =>
      if !own.InsertImage? && !own.UpdateImage? && !own.DeleteImage? {
        Corpus.OthersLeaveImagesAlone(d.corpus, own);
        hide Ledger.Apply, Corpus.Apply;
      }
  }

  /**
    A statement does to its own half what that half does on its own, and to the other only what keeps the
    cards and the references to them the same.
   */
  lemma EachHalfDoesItsOwn(d: Tables, s: Statement)
    requires Agree(d)
    ensures var after := Apply(d, s);
            match s
            case InLedger(own) =>
              && after.ledger == Ledger.Apply(d.ledger, own)
              && after.corpus == d.corpus.(cards := after.ledger.cards.Keys)
            case InCorpus(own) =>
              && after.corpus == Corpus.Apply(d.corpus, own)
              && after.ledger == d.ledger.(referrers := d.ledger.referrers.(trainingImages := CardsShown(after.corpus)))
  {
    OwnersDecide(d, s);
    RefusedChangesNothing(d, s);
    if !Refused(d, s) {
      ApplyKeepsAgreement(d, s);
      if s.InLedger? {
        CardsAlone(d, s);
      } else {
        ImagesAlone(d, s);
      }
    }
    hide Ledger.Apply, Ledger.Refused, Corpus.Apply, Corpus.Refused, Refused;
  }

  lemma RefusedChangesNothing(d: Tables, s: Statement)
    ensures s.InLedger? && Ledger.Refused(d.ledger, s.ledger) ==> Ledger.Apply(d.ledger, s.ledger) == d.ledger
    ensures s.InCorpus? && Corpus.Refused(d.corpus, s.corpus) ==> Corpus.Apply(d.corpus, s.corpus) == d.corpus
  {
    hide Ledger.Refused, Corpus.Refused;
  }

  lemma CardsAlone(d: Tables, s: Statement)
    requires s.InLedger?
    ensures var after := CorpusAfter(d.corpus, InCorpusTerms(s));
            after == d.corpus.(cards := after.cards)
  {
    hide Corpus.Apply;
    if InCorpusTerms(s).Some? {
      CardStatementsTouchCards(d.corpus, InCorpusTerms(s).value.id);
    }
  }

  lemma CardStatementsTouchCards(t: Corpus.Tables, card: Id)
    ensures var after := Corpus.Apply(t, Corpus.InsertCard(card)); after == t.(cards := after.cards)
    ensures var after := Corpus.Apply(t, Corpus.DeleteCard(card)); after == t.(cards := after.cards)
  {
    hide Corpus.Refused;
  }

  lemma ImagesAlone(d: Tables, s: Statement)
    requires s.InCorpus?
    ensures var after := LedgerAfter(d.ledger, InLedgerTerms(s));
            after == d.ledger.(referrers := d.ledger.referrers.(trainingImages := after.referrers.trainingImages))
  {
    hide Ledger.Refused, Ledger.Written, Ledger.Apply;
    if InLedgerTerms(s).Some? {
      Ledger.OnATrainingImage(d.ledger, InLedgerTerms(s).value.trainingImages);
    }
  }

  // ----- Deleting a card, over the whole database

  /**
    In every reachable state a card goes exactly when no analysis, no price, no training image and no
    reported grade names it, and takes with it its external ids and nothing else.
   */
  lemma DeletingACard(statements: seq<Statement>, id: Id)
    ensures var d := Run(EMPTY, statements);
            var s := InLedger(Ledger.OnCards(Ledger.Delete(id)));
            var after := Apply(d, s);
            && (Refused(d, s) <==>
                  || (exists a :: a in d.ledger.analyses && d.ledger.analyses[a].card == Some(id))
                  || (exists o :: o in d.ledger.observations && d.ledger.observations[o].card == id)
                  || (exists i :: i in d.corpus.images && d.corpus.images[i].card == Some(id))
                  || (exists f :: f in d.ledger.referrers.feedback && d.ledger.referrers.feedback[f] == id))
            && (Refused(d, s) ==> after == d)
            && (!Refused(d, s) ==>
                  && after.corpus == d.corpus.(cards := d.corpus.cards - {id})
                  && after.ledger == d.ledger.(cards := d.ledger.cards - {id}, externalIds := after.ledger.externalIds)
                  && (forall i :: i in after.ledger.externalIds
                        <==> i in d.ledger.externalIds && d.ledger.externalIds[i].card != id))
  {
    EmptyHasIntegrity();
    EveryRunKeepsIntegrity(EMPTY, statements);
    CardGoesIff(Run(EMPTY, statements), id);
    CardGoesAlone(Run(EMPTY, statements), id);
    hide Run, Refused, Apply;
  }

  lemma CardGoesIff(d: Tables, id: Id)
    requires Integrity(d)
    ensures Refused(d, InLedger(Ledger.OnCards(Ledger.Delete(id)))) <==>
              || (exists a :: a in d.ledger.analyses && d.ledger.analyses[a].card == Some(id))
              || (exists o :: o in d.ledger.observations && d.ledger.observations[o].card == id)
              || (exists i :: i in d.corpus.images && d.corpus.images[i].card == Some(id))
              || (exists f :: f in d.ledger.referrers.feedback && d.ledger.referrers.feedback[f] == id)
  {
    Ledger.DeletingACard(d.ledger, id);
    OwnersDecide(d, InLedger(Ledger.OnCards(Ledger.Delete(id))));
    hide Ledger.Refused, Ledger.Apply, Ledger.Integrity, Corpus.Integrity, Refused;
    assert forall i :: i in d.ledger.referrers.trainingImages <==> i in d.corpus.images;
  }

  lemma CardGoesAlone(d: Tables, id: Id)
    ensures var s := InLedger(Ledger.OnCards(Ledger.Delete(id)));
            var after := Apply(d, s);
            && (Refused(d, s) ==> after == d)
            && (!Refused(d, s) ==>
                  && after.corpus == d.corpus.(cards := d.corpus.cards - {id})
                  && after.ledger == d.ledger.(cards := d.ledger.cards - {id}, externalIds := after.ledger.externalIds)
                  && (forall i :: i in after.ledger.externalIds
                        <==> i in d.ledger.externalIds && d.ledger.externalIds[i].card != id))
  {
    Ledger.DeletingACard(d.ledger, id);
    hide Ledger.Refused, Ledger.Apply, Corpus.Refused;
  }

  lemma EmptyHasIntegrity()
    ensures Integrity(EMPTY)
  {
    Ledger.ReachableHasIntegrity([]);
    Corpus.ReachableHasIntegrity([]);
    hide Ledger.Integrity, Corpus.Integrity;
  }
}
