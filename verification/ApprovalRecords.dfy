/** Approval requests as they are stored: their keys, their statuses and the
    expiry view under which `Get` reports them. */
module ApprovalRecords {
  import opened Common

  datatype Status = Pending | Approved | Denied | Expired

  /** Clock readings are nanoseconds. The optional stamps stand for Go's zero time when absent. */
  datatype Request = Request(
    id: string,
    executionID: string,
    stepName: string,
    runbookID: string,
    user: string,
    script: string,
    scriptHash: string,
    approvers: seq<string>,
    status: Status,
    approvedBy: string,
    approvedAt: Option<int>,
    deniedBy: string,
    deniedAt: Option<int>,
    denialReason: string,
    createdAt: int,
    expiresAt: int)

  const LIFETIME := 24 * 60 * 60 * 1_000_000_000

  function Key(executionID: string, stepName: string): string {
    executionID + "-" + stepName
  }

  function KeyOfRecord(r: Request): string {
    Key(r.executionID, r.stepName)
  }

  /** `strings.EqualFold`, with `fold` choosing one representative of each case-folding orbit. */
  predicate EqualFold(fold: char -> char, a: string, b: string) {
    |a| == |b| && forall i | 0 <= i < |a| :: fold(a[i]) == fold(b[i])
  }

  predicate Contains(fold: char -> char, names: seq<string>, name: string) {
    exists i | 0 <= i < |names| :: EqualFold(fold, names[i], name)
  }

  /** A name with the differences of case taken out. */
  function Folded(fold: char -> char, s: string): string {
    seq(|s|, i requires 0 <= i < |s| => fold(s[i]))
  }

  /** The name is on the list, up to case. */
  ghost predicate Listed(fold: char -> char, names: seq<string>, name: string) {
    exists i :: 0 <= i < |names| && Folded(fold, names[i]) == Folded(fold, name)
  }

  lemma {:induction false} EqualFoldIsSameText(fold: char -> char, a: string, b: string)
    ensures EqualFold(fold, a, b) <==> Folded(fold, a) == Folded(fold, b)
  {
    var x, y := Folded(fold, a), Folded(fold, b);
    if x == y {
      assert |a| == |x| == |y| == |b|;
      forall i | 0 <= i < |a| ensures fold(a[i]) == fold(b[i]) {
        assert x[i] == y[i];
      }
    }
  }

  /** Whom the list contains. */
  lemma {:induction false} ContainsIsListed(fold: char -> char, names: seq<string>, name: string)
    ensures Contains(fold, names, name) <==> Listed(fold, names, name)
  {
    forall i | 0 <= i < |names| ensures EqualFold(fold, names[i], name) <==> Folded(fold, names[i]) == Folded(fold, name) {
      EqualFoldIsSameText(fold, names[i], name);
    }
  }

  /** Without folding, it contains its entries. */
  lemma {:induction false} ContainsPlainly(names: seq<string>, name: string)
    ensures Contains(c => c, names, name) <==> name in names
  {
    var id := (c: char) => c;
    ContainsIsListed(id, names, name);
    forall s: string ensures Folded(id, s) == s {}
    if Contains(c => c, names, name) {
      var i :| 0 <= i < |names| && EqualFold(c => c, names[i], name);
      assert names[i] == name;
    }
    if name in names {
      var i :| 0 <= i < |names| && names[i] == name;
      assert EqualFold(c => c, names[i], name);
    }
  }

  predicate PastExpiry(r: Request, now: int) {
    r.status == Pending && now > r.expiresAt
  }

  function ExpiredCopy(r: Request): Request {
    r.(status := Expired)
  }

  /** What `Get` reports for a stored record when it reads the clock at `now`. */
  function View(r: Request, now: int): Request {
    if PastExpiry(r, now) then ExpiredCopy(r) else r
  }

  function ApprovedCopy(r: Request, approver: string, at: int): Request {
    r.(status := Approved, approvedBy := approver, approvedAt := Some(at))
  }

  function DeniedCopy(r: Request, denier: string, at: int, reason: string): Request {
    r.(status := Denied, deniedBy := denier, deniedAt := Some(at), denialReason := reason)
  }

  predicate Terminal(s: Status) {
    s == Approved || s == Denied
  }

  ghost predicate Undecided(r: Request) {
    && r.approvedBy == "" && r.approvedAt == None
    && r.deniedBy == "" && r.deniedAt == None && r.denialReason == ""
  }

  /** What holds of every record a client ever holds or stores, at any time up to `now`. */
  ghost predicate RecordOk(fold: char -> char, r: Request, now: int) {
    && r.createdAt <= now
    && r.expiresAt == r.createdAt + LIFETIME
    && match r.status
       case Pending => Undecided(r)
       case Expired => Undecided(r) && r.expiresAt < now
       case Approved =>
         && Contains(fold, r.approvers, r.approvedBy) && r.approvedAt.Some? && r.approvedAt.value <= now
         && r.deniedBy == "" && r.deniedAt == None && r.denialReason == ""
       case Denied =>
         && Contains(fold, r.approvers, r.deniedBy) && r.deniedAt.Some? && r.deniedAt.value <= now
         && r.approvedBy == "" && r.approvedAt == None
  }

  /** Two pairs share a key exactly when one step name continues the other execution ID's text
      across a dash. */
  lemma {:induction false} KeyCollision(e: string, s: string, e': string, s': string)
    ensures Key(e, s) == Key(e', s') <==>
            (e == e' && s == s')
            || (exists m :: e' == e + "-" + m && s == m + "-" + s')
            || (exists m :: e == e' + "-" + m && s' == m + "-" + s)
  {
    if Key(e, s) == Key(e', s') {
      if |e| <= |e'| {
        SplitKey(e, s, e', s');
      } else {
        SplitKey(e', s', e, s);
      }
    }
    forall m { JoinKey(e, m, s'); }
    forall m { JoinKey(e', m, s); }
  }

  lemma {:induction false} JoinKey(e: string, m: string, s: string)
    ensures Key(e, m + "-" + s) == Key(e + "-" + m, s)
  {}

  lemma {:induction false} SplitKey(e: string, s: string, e': string, s': string)
    requires Key(e, s) == Key(e', s') && |e| <= |e'|
    ensures (e == e' && s == s') || exists m :: e' == e + "-" + m && s == m + "-" + s'
  {
    var k, k' := Key(e, s), Key(e', s');
    assert e == k[..|e|] && e' == k'[..|e'|];
    assert s == k[|e| + 1..] && s' == k'[|e'| + 1..];
    if |e| < |e'| {
      var m := e'[|e| + 1..];
      assert k[|e|] == '-' && k'[|e'|] == '-';
      assert e' == e + "-" + m;
      assert s == m + "-" + s';
    }
  }

  /** For step names without a dash a key determines the pair it was built from. */
  lemma {:induction false} KeyInjective(e: string, s: string, e': string, s': string)
    requires '-' !in s && '-' !in s'
    requires Key(e, s) == Key(e', s')
    ensures e == e' && s == s'
  {
    KeyCollision(e, s, e', s');
    forall m ensures '-' in m + "-" + s' && '-' in m + "-" + s {
      assert (m + "-" + s')[|m|] == (m + "-" + s)[|m|] == '-';
    }
  }
}
