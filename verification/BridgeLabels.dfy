/** Contact labels of the bridge: the search for a free "Contact n", and the
    uniqueness of labels among one user's active contacts. */
module BridgeLabels {
  import opened RelayTables
  import opened Paging

  /** Case folding, taken as a parameter. */
  type Fold = string -> string

  function Digit(d: nat): char
    requires d < 10
  {
    ['0', '1', '2', '3', '4', '5', '6', '7', '8', '9'][d]
  }

  function Decimal(n: nat): (s: string)
    ensures s != []
  {
    if n < 10 then [Digit(n)] else Decimal(n / 10) + [Digit(n % 10)]
  }

  function ContactLabel(n: nat): string {
    "Contact " + Decimal(n)
  }

  /** The numbered labels stay different when folded. */
  ghost predicate SeparatesNumbers(fold: Fold) {
    forall i: nat, j: nat :: fold(ContactLabel(i)) == fold(ContactLabel(j)) ==> i == j
  }

  lemma DigitsDiffer(a: nat, b: nat)
    requires a < 10 && b < 10 && Digit(a) == Digit(b)
    ensures a == b
  {
    var ds := ['0', '1', '2', '3', '4', '5', '6', '7', '8', '9'];
    assert ds[a] == ds[b];
  }

  lemma {:induction false} DecimalIsInjective(i: nat, j: nat)
    requires Decimal(i) == Decimal(j)
    ensures i == j
    decreases i
  {
    var s, t := Decimal(i), Decimal(j);
    assert s[|s| - 1] == t[|t| - 1];
    DigitsDiffer(i % 10, j % 10);
    if i >= 10 && j >= 10 {
      assert s[..|s| - 1] == Decimal(i / 10) && t[..|t| - 1] == Decimal(j / 10);
      DecimalIsInjective(i / 10, j / 10);
    } else {
      assert |s| == |t|;
    }
  }

  /** Lower-casing of ASCII letters, which is what case folding does to the
      numbered labels, separates them. */
  function AsciiLower(s: string): (r: string)
    ensures |r| == |s|
  {
    seq(|s|, i requires 0 <= i < |s| => if 'A' <= s[i] <= 'Z' then (s[i] as int + 32) as char else s[i])
  }

  lemma {:induction false} DecimalHasNoLetters(n: nat, i: nat)
    requires i < |Decimal(n)|
    ensures !('A' <= Decimal(n)[i] <= 'Z')
  {
    if n >= 10 && i < |Decimal(n / 10)| {
      DecimalHasNoLetters(n / 10, i);
    }
  }

  lemma LowerSeparatesNumbers()
    ensures SeparatesNumbers(AsciiLower)
  {
    forall i: nat, j: nat | AsciiLower(ContactLabel(i)) == AsciiLower(ContactLabel(j))
      ensures i == j
    {
      var a, b := ContactLabel(i), ContactLabel(j);
      assert |a| == |AsciiLower(a)| == |AsciiLower(b)| == |b|;
      forall k | 0 <= k < |Decimal(i)|
        ensures Decimal(i)[k] == Decimal(j)[k]
      {
        DecimalHasNoLetters(i, k);
        DecimalHasNoLetters(j, k);
        assert AsciiLower(a)[k + 8] == a[k + 8] == Decimal(i)[k];
        assert AsciiLower(b)[k + 8] == b[k + 8] == Decimal(j)[k];
      }
      assert Decimal(i) == Decimal(j);
      DecimalIsInjective(i, j);
    }
  }

  // ------------------------------------------------------------- the search

  function NumberedUpTo(fold: Fold, n: nat): set<string> {
    set i | 1 <= i <= n :: fold(ContactLabel(i))
  }

  lemma {:induction false} NumberedSize(fold: Fold, n: nat)
    requires SeparatesNumbers(fold)
    ensures |NumberedUpTo(fold, n)| == n
  {
    if n == 0 {
      assert NumberedUpTo(fold, 0) == {};
    } else {
      NumberedSize(fold, n - 1);
      assert NumberedUpTo(fold, n) == NumberedUpTo(fold, n - 1) + {fold(ContactLabel(n))};
      assert fold(ContactLabel(n)) !in NumberedUpTo(fold, n - 1);
    }
  }

  /** The first number whose folded label is free, found within one more try than
      there are labels. */
  ghost predicate IsNextNumber(fold: Fold, taken: set<string>, n: nat) {
    && 1 <= n <= |taken| + 1
    && fold(ContactLabel(n)) !in taken
    && forall i :: 1 <= i < n ==> fold(ContactLabel(i)) in taken
  }

  lemma NextNumberIsUnique(fold: Fold, taken: set<string>, m: nat, n: nat)
    requires IsNextNumber(fold, taken, m) && IsNextNumber(fold, taken, n)
    ensures m == n
  {
    assert m <= n;
    assert n <= m;
  }

  method FindNumber(fold: Fold, taken: set<string>) returns (n: nat)
    requires SeparatesNumbers(fold)
    ensures IsNextNumber(fold, taken, n)
  {
    n := 1;
    while fold(ContactLabel(n)) in taken
      invariant n >= 1 && forall i :: 1 <= i < n ==> fold(ContactLabel(i)) in taken
      invariant n - 1 <= |taken|
      decreases |taken| + 1 - n
    {
      NumberedSize(fold, n);
      assert NumberedUpTo(fold, n) <= taken;
      SubsetSize(NumberedUpTo(fold, n), taken);
      n := n + 1;
    }
  }

  // -------------------------------------------------------------- the state

  datatype Contact = Contact(user: Id, endpoint: Id, name: string, active: bool)

  datatype PendingLink = PendingLink(user: Id, endpoint: Id, name: string)

  /** `endpoints` are the hidden endpoints ever created; the relay never hands out
      one twice. */
  datatype Book = Book(contacts: map<Id, Contact>, pending: map<Id, PendingLink>, endpoints: set<Id>)

  function Taken(book: Book, fold: Fold, user: Id, but: Option<Id>, includeInactive: bool): set<string> {
    set b | b in book.contacts && book.contacts[b].user == user && (includeInactive || book.contacts[b].active) &&
            Some(b) != but :: fold(book.contacts[b].name)
  }

  /** `next_contact_label`. */
  ghost predicate IsNextLabel(book: Book, fold: Fold, user: Id, chosen: string) {
    exists n :: IsNextNumber(fold, Taken(book, fold, user, None, true), n) && chosen == ContactLabel(n)
  }

  /** `ensure_unique_label`, for a label already stripped. */
  ghost predicate IsUniqueLabel(
    book: Book, fold: Fold, user: Id, desired: string, but: Option<Id>, includeInactive: bool, chosen: string)
  {
    if desired != "" && fold(desired) !in Taken(book, fold, user, but, includeInactive) then chosen == desired
    else IsNextLabel(book, fold, user, chosen)
  }

  datatype Command =
    | RequestCode(pid: Id, user: Id, endpoint: Id)
    | RedeemCode(bid: Id, user: Id, endpoint: Id)
    | Materialize(pid: Id, bid: Id)
    | DropPending(pid: Id)
    | Rename(bid: Id, wanted: string)
    | Sever(bid: Id)
    | DeleteContact(bid: Id)

  predicate CanRun(book: Book, c: Command) {
    match c
    case RequestCode(pid, _, e) => pid !in book.pending && e !in book.endpoints
    case RedeemCode(bid, _, e) => bid !in book.contacts && e !in book.endpoints
    case Materialize(pid, bid) =>
      pid in book.pending &&
      (bid in book.contacts ==> book.contacts[bid].endpoint == book.pending[pid].endpoint) &&
      (bid !in book.contacts ==>
         forall b :: b in book.contacts ==> book.contacts[b].endpoint != book.pending[pid].endpoint)
    case DropPending(pid) => pid in book.pending
    case Rename(bid, wanted) => bid in book.contacts && book.contacts[bid].active && wanted != ""
    case Sever(bid) => bid in book.contacts
    case DeleteContact(bid) => bid in book.contacts
  }

  /** The new state, given the label that the command's search returned. */
  function Run(book: Book, c: Command, fold: Fold, chosen: string): Book
    requires CanRun(book, c)
  {
    match c
    case RequestCode(pid, user, e) =>
      book.(pending := book.pending[pid := PendingLink(user, e, chosen)], endpoints := book.endpoints + {e})
    case RedeemCode(bid, user, e) =>
      book.(contacts := book.contacts[bid := Contact(user, e, chosen, true)], endpoints := book.endpoints + {e})
    case Materialize(pid, bid) =>
      var p := book.pending[pid];
      var kept := if bid in book.contacts then book.contacts[bid].name else chosen;
      book.(contacts := book.contacts[bid := Contact(p.user, p.endpoint, kept, true)], pending := book.pending - {pid})
    case DropPending(pid) => book.(pending := book.pending - {pid})
    case Rename(bid, wanted) =>
      if chosen != wanted then book
      else book.(contacts := book.contacts[bid := book.contacts[bid].(name := wanted)])
    case Sever(bid) => book.(contacts := book.contacts[bid := book.contacts[bid].(active := false)])
    case DeleteContact(bid) => book.(contacts := book.contacts - {bid})
  }

  /** The label search each command makes. */
  ghost predicate LabelFor(book: Book, c: Command, fold: Fold, chosen: string)
    requires CanRun(book, c)
  {
    match c
    case RequestCode(_, user, _) => IsNextLabel(book, fold, user, chosen)
    case RedeemCode(_, user, _) => IsNextLabel(book, fold, user, chosen)
    case Materialize(pid, bid) =>
      var p := book.pending[pid];
      IsUniqueLabel(book, fold, p.user, p.name, if bid in book.contacts then Some(bid) else None, false, chosen)
    case Rename(bid, wanted) => IsUniqueLabel(book, fold, book.contacts[bid].user, wanted, Some(bid), false, chosen)
    case _ => true
  }

  class ContactBook {
    var contacts: map<Id, Contact>
    var pending: map<Id, PendingLink>
    var endpoints: set<Id>

    function State(): Book
      reads this
    {
      Book(contacts, pending, endpoints)
    }

    constructor ()
      ensures State() == Book(map[], map[], {})
    {
      contacts, pending, endpoints := map[], map[], {};
    }

    method NextContactLabel(fold: Fold, user: Id) returns (chosen: string)
      requires SeparatesNumbers(fold)
      ensures IsNextLabel(State(), fold, user, chosen)
    {
      var existing := Taken(State(), fold, user, None, true);
      var n := FindNumber(fold, existing);
      chosen := ContactLabel(n);
    }

    method EnsureUniqueLabel(fold: Fold, user: Id, desired: string, but: Option<Id>, includeInactive: bool)
      returns (chosen: string)
      requires SeparatesNumbers(fold)
      ensures IsUniqueLabel(State(), fold, user, desired, but, includeInactive, chosen)
    {
      if desired == "" {
        chosen := NextContactLabel(fold, user);
        return;
      }
      var taken := Taken(State(), fold, user, but, includeInactive);
      if fold(desired) !in taken {
        return desired;
      }
      chosen := NextContactLabel(fold, user);
    }

    method RequestLinkCode(fold: Fold, pid: Id, user: Id, e: Id) returns (chosen: string)
      requires SeparatesNumbers(fold) && CanRun(State(), RequestCode(pid, user, e))
      modifies this
      ensures LabelFor(old(State()), RequestCode(pid, user, e), fold, chosen)
      ensures State() == Run(old(State()), RequestCode(pid, user, e), fold, chosen)
    {
      chosen := NextContactLabel(fold, user);
      endpoints := endpoints + {e};
      pending := pending[pid := PendingLink(user, e, chosen)];
    }

    method RedeemLinkCode(fold: Fold, bid: Id, user: Id, e: Id) returns (chosen: string)
      requires SeparatesNumbers(fold) && CanRun(State(), RedeemCode(bid, user, e))
      modifies this
      ensures LabelFor(old(State()), RedeemCode(bid, user, e), fold, chosen)
      ensures State() == Run(old(State()), RedeemCode(bid, user, e), fold, chosen)
    {
      chosen := NextContactLabel(fold, user);
      endpoints := endpoints + {e};
      contacts := contacts[bid := Contact(user, e, chosen, true)];
    }

    method MaterializePendingBinding(fold: Fold, pid: Id, bid: Id) returns (chosen: string)
      requires SeparatesNumbers(fold) && CanRun(State(), Materialize(pid, bid))
      modifies this
      ensures LabelFor(old(State()), Materialize(pid, bid), fold, chosen)
      ensures State() == Run(old(State()), Materialize(pid, bid), fold, chosen)
    {
      var p := pending[pid];
      var but := if bid in contacts then Some(bid) else None;
      chosen := EnsureUniqueLabel(fold, p.user, p.name, but, false);
      var name := if bid in contacts then contacts[bid].name else chosen;
      contacts := contacts[bid := Contact(p.user, p.endpoint, name, true)];
      pending := pending - {pid};
    }

    method RenameContact(fold: Fold, bid: Id, wanted: string) returns (unique: string)
      requires SeparatesNumbers(fold) && CanRun(State(), Rename(bid, wanted))
      modifies this
      ensures LabelFor(old(State()), Rename(bid, wanted), fold, unique)
      ensures State() == Run(old(State()), Rename(bid, wanted), fold, unique)
    {
      unique := EnsureUniqueLabel(fold, contacts[bid].user, wanted, Some(bid), false);
      if unique != wanted {
        return;
      }
      contacts := contacts[bid := contacts[bid].(name := wanted)];
    }
  }

  // -------------------------------------------------------------- uniqueness

  /** No two active contacts of one user share a folded label. */
  ghost predicate LabelsUnique(book: Book, fold: Fold) {
    forall a, b :: a in book.contacts && b in book.contacts && a != b ==> !Clash(book, fold, a, b)
  }

  predicate Clash(book: Book, fold: Fold, a: Id, b: Id)
    requires a in book.contacts && b in book.contacts
  {
    && book.contacts[a].active && book.contacts[b].active && book.contacts[a].user == book.contacts[b].user
    && fold(book.contacts[a].name) == fold(book.contacts[b].name)
  }

  /** A pending link's endpoint has no contact and no other pending link. */
  ghost predicate PendingUnbound(book: Book) {
    && (forall b :: b in book.contacts ==> book.contacts[b].endpoint in book.endpoints)
    && (forall p :: p in book.pending ==> book.pending[p].endpoint in book.endpoints)
    && (forall b, p :: b in book.contacts && p in book.pending ==>
          book.contacts[b].endpoint != book.pending[p].endpoint)
    && (forall p, q :: p in book.pending && q in book.pending && p != q ==>
          book.pending[p].endpoint != book.pending[q].endpoint)
  }

  lemma NextLabelIsFree(book: Book, fold: Fold, user: Id, chosen: string, b: Id)
    requires IsNextLabel(book, fold, user, chosen) && b in book.contacts && book.contacts[b].user == user
    ensures fold(book.contacts[b].name) != fold(chosen)
  {
    assert fold(book.contacts[b].name) in Taken(book, fold, user, None, true);
  }

  lemma UniqueLabelIsFree(
    book: Book, fold: Fold, user: Id, desired: string, but: Option<Id>, chosen: string, b: Id)
    requires IsUniqueLabel(book, fold, user, desired, but, false, chosen)
    requires b in book.contacts && book.contacts[b].user == user && book.contacts[b].active && Some(b) != but
    ensures fold(book.contacts[b].name) != fold(chosen)
  {
    assert fold(book.contacts[b].name) in Taken(book, fold, user, but, false);
    if !(desired != "" && fold(desired) !in Taken(book, fold, user, but, false)) {
      NextLabelIsFree(book, fold, user, chosen, b);
    }
  }

  lemma CommandKeepsPending(book: Book, c: Command, fold: Fold, chosen: string)
    requires PendingUnbound(book) && CanRun(book, c)
    ensures PendingUnbound(Run(book, c, fold, chosen))
  {
  }

  /** Adding or relabelling one contact with a label that is free for it. */
  lemma FreeLabelKeepsUnique(book: Book, fold: Fold, bid: Id, contact: Contact)
    requires LabelsUnique(book, fold)
    requires forall b :: b in book.contacts && b != bid && book.contacts[b].active ==>
                           book.contacts[b].user != contact.user || fold(book.contacts[b].name) != fold(contact.name)
    ensures LabelsUnique(book.(contacts := book.contacts[bid := contact]), fold)
  {
  }

  /** Every command keeps labels unique, although pending links may hold labels
      that are taken by the time they become contacts. */
  lemma CommandKeepsLabels(book: Book, c: Command, fold: Fold, chosen: string)
    requires LabelsUnique(book, fold) && PendingUnbound(book) && CanRun(book, c) && LabelFor(book, c, fold, chosen)
    ensures LabelsUnique(Run(book, c, fold, chosen), fold)
  {
    match c
    case RedeemCode(bid, user, e) =>
      forall b | b in book.contacts && book.contacts[b].user == user
        ensures fold(book.contacts[b].name) != fold(chosen)
      {
        NextLabelIsFree(book, fold, user, chosen, b);
      }
      FreeLabelKeepsUnique(book, fold, bid, Contact(user, e, chosen, true));
    case Materialize(pid, bid) =>
      var p := book.pending[pid];
      forall b | b in book.contacts && book.contacts[b].user == p.user && book.contacts[b].active
        ensures fold(book.contacts[b].name) != fold(chosen)
      {
        UniqueLabelIsFree(book, fold, p.user, p.name, None, chosen, b);
      }
      FreeLabelKeepsUnique(book, fold, bid, Contact(p.user, p.endpoint, chosen, true));
    case Rename(bid, wanted) =>
      var x := book.contacts[bid];
      forall b | b in book.contacts && b != bid && book.contacts[b].user == x.user && book.contacts[b].active
        ensures fold(book.contacts[b].name) != fold(chosen)
      {
        UniqueLabelIsFree(book, fold, x.user, wanted, Some(bid), chosen, b);
      }
      if chosen == wanted {
        FreeLabelKeepsUnique(book, fold, bid, x.(name := wanted));
      }
    case _ =>
  }

  /** A run of commands, each with the label its search returned. */
  ghost predicate LegalRun(book: Book, run: seq<(Command, string)>, fold: Fold)
    decreases |run|
  {
    run == [] ||
    (CanRun(book, run[0].0) && LabelFor(book, run[0].0, fold, run[0].1) &&
     LegalRun(Run(book, run[0].0, fold, run[0].1), run[1..], fold))
  }

  ghost function AfterRun(book: Book, run: seq<(Command, string)>, fold: Fold): Book
    requires LegalRun(book, run, fold)
    decreases |run|
  {
    if run == [] then book else AfterRun(Run(book, run[0].0, fold, run[0].1), run[1..], fold)
  }

  lemma {:induction false} LabelsStayUnique(book: Book, run: seq<(Command, string)>, fold: Fold)
    requires LabelsUnique(book, fold) && PendingUnbound(book) && LegalRun(book, run, fold)
    ensures LabelsUnique(AfterRun(book, run, fold), fold)
    decreases |run|
  {
    if run != [] {
      CommandKeepsLabels(book, run[0].0, fold, run[0].1);
      CommandKeepsPending(book, run[0].0, fold, run[0].1);
      LabelsStayUnique(Run(book, run[0].0, fold, run[0].1), run[1..], fold);
    }
  }

  /** With commands taken one at a time, no two active contacts of one user ever
      share a folded label. */
  lemma LabelsAreAlwaysUnique(run: seq<(Command, string)>, fold: Fold)
    requires LegalRun(Book(map[], map[], {}), run, fold)
    ensures LabelsUnique(AfterRun(Book(map[], map[], {}), run, fold), fold)
  {
    LabelsStayUnique(Book(map[], map[], {}), run, fold);
  }

  /** Two requests in a row give their pending links the same label. */
  lemma PendingLabelsCoincide(book: Book, fold: Fold, c1: Command, c2: Command, l1: string, l2: string)
    requires c1.RequestCode? && c2.RequestCode? && c1.user == c2.user
    requires CanRun(book, c1) && LabelFor(book, c1, fold, l1)
    requires CanRun(Run(book, c1, fold, l1), c2) && LabelFor(Run(book, c1, fold, l1), c2, fold, l2)
    ensures l1 == l2
  {
    var book' := Run(book, c1, fold, l1);
    assert Taken(book', fold, c2.user, None, true) == Taken(book, fold, c1.user, None, true);
    var taken := Taken(book, fold, c1.user, None, true);
    var m :| IsNextNumber(fold, taken, m) && l1 == ContactLabel(m);
    var n :| IsNextNumber(fold, taken, n) && l2 == ContactLabel(n);
    NextNumberIsUnique(fold, taken, m, n);
  }
}
