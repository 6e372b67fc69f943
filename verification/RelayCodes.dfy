/** Link codes: one code makes at most one link, over every interleaving of
    redeemers, clean-ups and deletes. */
module RelayCodes {
  import opened RelayTables
  import opened RelaySpec
  import opened RelayInvariant
  import opened RelayRuns

  ghost predicate IsOpen(db: Db, c: Id) {
    c in db.codes && db.codes[c].status == Open
  }

  /** The code has been issued and is no longer redeemable. */
  ghost predicate Spent(s: Sys, c: Id) {
    c in s.minted && !IsOpen(s.db, c)
  }

  lemma RedeemNeverReopens(s: Sys, a: Action, c: Id)
    requires Enabled(s, a) && a.EndRedeem? && IsOpen(NextDb(s, a), c)
    ensures IsOpen(s.db, c)
  {
  }

  lemma LinkStepNeverReopens(s: Sys, a: Action, c: Id)
    requires Enabled(s, a) && ChangesLinks(a) && !a.EndRedeem? && IsOpen(NextDb(s, a), c)
    ensures IsOpen(s.db, c) || c in FreshIds(a)
  {
  }

  lemma DeletingStepNeverReopens(s: Sys, a: Action, c: Id)
    requires Enabled(s, a) && (DeletesOwners(a) || a.DoCleanup?) && IsOpen(NextDb(s, a), c)
    ensures IsOpen(s.db, c)
  {
  }

  lemma StepNeverReopens(s: Sys, a: Action, c: Id)
    requires Enabled(s, a) && IsOpen(NextDb(s, a), c)
    ensures IsOpen(s.db, c) || c in FreshIds(a)
  {
    if a.EndRedeem? {
      RedeemNeverReopens(s, a, c);
    } else if ChangesLinks(a) {
      LinkStepNeverReopens(s, a, c);
    } else if TouchesCodes(a) {
      DeletingStepNeverReopens(s, a, c);
    } else {
      OtherActionsLeaveCodes(s, a);
    }
  }

  /** A code that leaves "active" never comes back to it. */
  lemma SpentStaysSpent(s: Sys, a: Action, c: Id)
    requires Enabled(s, a) && Spent(s, c)
    ensures Spent(Next(s, a), c)
  {
    if IsOpen(NextDb(s, a), c) {
      StepNeverReopens(s, a, c);
    }
  }

  ghost predicate RedeemsCode(s: Sys, a: Action, c: Id)
    requires Enabled(s, a)
  {
    a.EndRedeem? && s.redeems[a.task].code == c && ReplyTo(s, a).Linked?
  }

  lemma RedeemSpendsCode(s: Sys, a: Action, c: Id)
    requires SysInv(s) && Enabled(s, a) && RedeemsCode(s, a, c)
    ensures IsOpen(s.db, c) && Spent(Next(s, a), c)
  {
    assert RedeemTicketOk(s, s.redeems[a.task]);
  }

  ghost function LinksMade(s: Sys, run: seq<Action>, c: Id): nat
    requires Legal(s, run)
    decreases |run|
  {
    if run == [] then 0
    else (if RedeemsCode(s, run[0], c) then 1 else 0) + LinksMade(Next(s, run[0]), run[1..], c)
  }

  lemma {:induction false} SpentCodeMakesNoLink(s: Sys, run: seq<Action>, c: Id)
    requires SysInv(s) && Legal(s, run) && Spent(s, c)
    ensures LinksMade(s, run, c) == 0 && Spent(After(s, run), c)
    decreases |run|
  {
    if run != [] {
      StepKeepsInvariant(s, run[0]);
      SpentStaysSpent(s, run[0], c);
      if RedeemsCode(s, run[0], c) {
        RedeemSpendsCode(s, run[0], c);
      }
      SpentCodeMakesNoLink(Next(s, run[0]), run[1..], c);
    }
  }

  /** One code produces at most one link in any run. */
  lemma {:induction false} CodeMakesAtMostOneLink(s: Sys, run: seq<Action>, c: Id)
    requires SysInv(s) && Legal(s, run)
    ensures LinksMade(s, run, c) <= 1
    decreases |run|
  {
    if run != [] {
      StepKeepsInvariant(s, run[0]);
      if RedeemsCode(s, run[0], c) {
        RedeemSpendsCode(s, run[0], c);
        SpentCodeMakesNoLink(Next(s, run[0]), run[1..], c);
      } else {
        CodeMakesAtMostOneLink(Next(s, run[0]), run[1..], c);
      }
    }
  }

  /** A refused redeem changes no table, except that a code that was out of
      date when it was read may be marked expired. */
  lemma RefusedRedeemIsInert(s: Sys, a: Action)
    requires SysInv(s) && Enabled(s, a) && (a.BeginRedeem? || a.EndRedeem?) && ReplyTo(s, a).Denied?
    ensures NextDb(s, a) == s.db ||
            (a.EndRedeem? && s.redeems[a.task].Expire? &&
             var t := s.redeems[a.task];
             t.code in s.db.codes && s.db.codes[t.code].expiresAt <= t.readAt &&
             NextDb(s, a) == s.db.(codes := s.db.codes[t.code := s.db.codes[t.code].(status := Expired)]))
  {
    if a.EndRedeem? {
      assert RedeemTicketOk(s, s.redeems[a.task]);
    }
  }

  /** The loser of a race for one code is told the code is not active. */
  lemma LosingRedeemerIsRefused(s: Sys, a: Action)
    requires Enabled(s, a) && a.EndRedeem? && s.redeems[a.task].Claim? && !IsOpen(s.db, s.redeems[a.task].code)
    ensures ReplyTo(s, a) == Denied(CodeNotActive) && NextDb(s, a) == s.db
  {
  }
}
