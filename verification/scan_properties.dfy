/** Properties of the scan that relate several calls: batches split at any
    point, failures stay local, output order follows account order and then
    search order, and the authentication error appears exactly on rejection. */
module ScanProperties {
  import opened Wrappers
  import opened Addresses
  import opened Scan

  /** Appending reports is associative. */
  lemma JoinAssociative(a: Report, b: Report, c: Report)
    ensures Join(a, Join(b, c)) == Join(Join(a, b), c)
  {
  }

  /** Placing a report with one error and no mail between two others. */
  lemma JoinAroundError(a: Report, e: string, b: Report)
    ensures Join(Join(a, Report([e], [])), b) == Report(a.errors + [e] + b.errors, a.mails + b.mails)
  {
  }

  /** The server address and the password of an account never reach a
      mail record: two accounts with the same login and webmail link give
      the same record for the same header. */
  lemma MailIgnoresServerAndPassword(a1: Account, a2: Account, h: Header, codecs: Codecs)
    requires a1.login == a2.login && a1.webmail == a2.webmail
    ensures MakeMail(a1, h, codecs) == MakeMail(a2, h, codecs)
  {
  }

  /** The mails of one open session are the records of its fetched
      headers, position by position and so in search order, each keeping
      the header's `udate` and the account's `webmail`. */
  lemma {:induction false} MessagesInSearchOrder(account: Account, fetches: seq<Option<Header>>, codecs: Codecs)
    ensures var mails := ProcessMessages(account, fetches, codecs).mails;
            var hs := Fetched(fetches);
            && |mails| == |hs|
            && (forall i :: 0 <= i < |hs| ==> mails[i] == MakeMail(account, hs[i], codecs))
            && (forall i :: 0 <= i < |hs| ==> mails[i].udate == hs[i].udate && mails[i].webmail == account.webmail)
  {
    if fetches != [] {
      MessagesInSearchOrder(account, fetches[1..], codecs);
    }
  }

  /** Processing two runs of messages one after the other gives the two
      reports appended. */
  lemma {:induction false} MessagesConcat(account: Account, f1: seq<Option<Header>>, f2: seq<Option<Header>>, codecs: Codecs)
    ensures ProcessMessages(account, f1 + f2, codecs)
         == Join(ProcessMessages(account, f1, codecs), ProcessMessages(account, f2, codecs))
  {
    if f1 == [] {
      assert f1 + f2 == f2;
    } else {
      var first := MessageReport(account, f1[0], codecs);
      var rest1 := ProcessMessages(account, f1[1..], codecs);
      var rest2 := ProcessMessages(account, f2, codecs);
      assert (f1 + f2)[0] == f1[0];
      assert (f1 + f2)[1..] == f1[1..] + f2;
      MessagesConcat(account, f1[1..], f2, codecs);
      assert ProcessMessages(account, f1 + f2, codecs) == Join(first, Join(rest1, rest2));
      assert ProcessMessages(account, f1, codecs) == Join(first, rest1);
      JoinAssociative(first, rest1, rest2);
    }
  }

  /** A failed header fetch adds one error, drops only that message, and
      leaves the messages before and after it as they would be alone. */
  lemma HeaderFailureSkipsOnlyThatMessage(account: Account, f1: seq<Option<Header>>, f2: seq<Option<Header>>, codecs: Codecs)
    ensures var before := ProcessMessages(account, f1, codecs);
            var after := ProcessMessages(account, f2, codecs);
            ProcessMessages(account, f1 + [None] + f2, codecs)
              == Report(before.errors + [HeaderFailure] + after.errors, before.mails + after.mails)
  {
    var failed: seq<Option<Header>> := [None];
    var before := ProcessMessages(account, f1, codecs);
    var after := ProcessMessages(account, f2, codecs);
    var middle := ProcessMessages(account, failed, codecs);
    assert middle == Report([HeaderFailure], []) by {
      assert failed[1..] == [];
    }
    MessagesConcat(account, f1, failed, codecs);
    MessagesConcat(account, f1 + failed, f2, codecs);
    assert ProcessMessages(account, f1 + failed + f2, codecs) == Join(Join(before, middle), after);
    JoinAroundError(before, HeaderFailure, after);
  }

  /** One step of the outer loop: the first account, then the rest. */
  lemma ScanAccountsStep(probes: seq<Probe>, codecs: Codecs)
    requires probes != []
    ensures ScanAccounts(probes, codecs) == Join(ProcessAccount(probes[0], codecs), ScanAccounts(probes[1..], codecs))
  {
  }

  /** Scanning two lists of accounts one after the other gives the two
      reports appended: no account's outcome affects another's. */
  lemma {:induction false} ScanConcat(p1: seq<Probe>, p2: seq<Probe>, codecs: Codecs)
    ensures ScanAccounts(p1 + p2, codecs) == Join(ScanAccounts(p1, codecs), ScanAccounts(p2, codecs))
  {
    if p1 == [] {
      assert p1 + p2 == p2;
    } else {
      var first := ProcessAccount(p1[0], codecs);
      var rest1 := ScanAccounts(p1[1..], codecs);
      var rest2 := ScanAccounts(p2, codecs);
      assert (p1 + p2)[0] == p1[0];
      assert (p1 + p2)[1..] == p1[1..] + p2;
      ScanConcat(p1[1..], p2, codecs);
      ScanAccountsStep(p1 + p2, codecs);
      ScanAccountsStep(p1, codecs);
      JoinAssociative(first, rest1, rest2);
    }
  }

  /** An account whose connection fails adds exactly its connection error
      and no mail, and the accounts after it are still scanned. */
  lemma RefusedAccountIsolated(p1: seq<Probe>, account: Account, p2: seq<Probe>, codecs: Codecs)
    ensures var before := ScanAccounts(p1, codecs);
            var after := ScanAccounts(p2, codecs);
            ScanAccounts(p1 + [Probe(account, Refused)] + p2, codecs)
              == Report(before.errors + [ConnectionFailure(account.srv)] + after.errors, before.mails + after.mails)
  {
    var refused := [Probe(account, Refused)];
    var before := ScanAccounts(p1, codecs);
    var after := ScanAccounts(p2, codecs);
    var middle := ScanAccounts(refused, codecs);
    assert middle == Report([ConnectionFailure(account.srv)], []) by {
      assert refused[1..] == [];
    }
    ScanConcat(p1, refused, codecs);
    ScanConcat(p1 + refused, p2, codecs);
    assert ScanAccounts(p1 + refused + p2, codecs) == Join(Join(before, middle), after);
    JoinAroundError(before, ConnectionFailure(account.srv), after);
  }

  /** The headers of one account that become mails, each tagged with it. */
  function Tagged(p: Probe): (t: seq<(Account, Header)>)
  {
    var hs := ProbeHeaders(p);
    seq(|hs|, i requires 0 <= i < |hs| => (p.account, hs[i]))
  }

  /** Every fetched header of the batch with its account: account order
      first, search order within an account. */
  function ScanHeaders(probes: seq<Probe>): seq<(Account, Header)>
  {
    if probes == [] then [] else Tagged(probes[0]) + ScanHeaders(probes[1..])
  }

  /** The mails of one account are the records of its tagged headers. */
  lemma AccountMailsTagged(p: Probe, codecs: Codecs)
    ensures var mails := ProcessAccount(p, codecs).mails;
            var t := Tagged(p);
            && |mails| == |t|
            && (forall k :: 0 <= k < |t| ==> mails[k] == MakeMail(t[k].0, t[k].1, codecs))
  {
    if p.session.Opened? && p.session.search.Unseen? {
      MessagesInSearchOrder(p.account, p.session.search.fetches, codecs);
    }
  }

  /** The mails are exactly the records of `ScanHeaders`, position by
      position; in particular each carries its header's `udate` and its
      account's `webmail` unchanged, and nothing is reordered. */
  lemma {:induction false} MailsInAccountThenSearchOrder(probes: seq<Probe>, codecs: Codecs)
    ensures var mails := ScanAccounts(probes, codecs).mails;
            var hs := ScanHeaders(probes);
            && |mails| == |hs|
            && (forall k :: 0 <= k < |hs| ==> mails[k] == MakeMail(hs[k].0, hs[k].1, codecs))
            && (forall k :: 0 <= k < |hs| ==> mails[k].udate == hs[k].1.udate && mails[k].webmail == hs[k].0.webmail)
  {
    if probes != [] {
      MailsInAccountThenSearchOrder(probes[1..], codecs);
      AccountMailsTagged(probes[0], codecs);
      ScanAccountsStep(probes, codecs);
      var head := ProcessAccount(probes[0], codecs).mails;
      var rest := ScanAccounts(probes[1..], codecs).mails;
      var t := Tagged(probes[0]);
      var ths := ScanHeaders(probes[1..]);
      var mails := head + rest;
      var hs := t + ths;
      assert ScanAccounts(probes, codecs).mails == mails;
      assert ScanHeaders(probes) == hs;
      forall k | 0 <= k < |hs|
        ensures mails[k] == MakeMail(hs[k].0, hs[k].1, codecs)
      {
        if k < |t| {
          assert mails[k] == head[k] && hs[k] == t[k];
        } else {
          assert mails[k] == rest[k - |t|] && hs[k] == ths[k - |t|];
        }
      }
    }
  }

  /** The errors one account contributes: its connection error, or one
      header failure per failed fetch. */
  function AccountErrors(p: Probe): seq<string>
  {
    match p.session
    case Refused => [ConnectionFailure(p.account.srv)]
    case Opened(NoUnseen) => []
    case Opened(Unseen(fetches)) => seq(Failures(fetches), _ => HeaderFailure)
  }

  /** Every account's errors in account order. */
  function ExpectedErrors(probes: seq<Probe>): seq<string>
  {
    if probes == [] then [] else AccountErrors(probes[0]) + ExpectedErrors(probes[1..])
  }

  /** The errors of a scan are those of each account in turn. */
  lemma {:induction false} ErrorsAccountByAccount(probes: seq<Probe>, codecs: Codecs)
    ensures ScanAccounts(probes, codecs).errors == ExpectedErrors(probes)
  {
    if probes != [] {
      ErrorsAccountByAccount(probes[1..], codecs);
      var head := ProcessAccount(probes[0], codecs);
      var expected := AccountErrors(probes[0]);
      assert |head.errors| == |expected|;
      if probes[0].session.Opened? {
        assert forall k :: 0 <= k < |expected| ==> head.errors[k] in head.errors;
      }
      assert head.errors == expected;
    }
  }

  /** Every error of a scan is a header failure or the connection error
      of an account that refused the session. */
  lemma {:induction false} ScanErrorsFromAccounts(probes: seq<Probe>, codecs: Codecs)
    ensures forall e :: e in ScanAccounts(probes, codecs).errors ==> ScanError(e, probes)
  {
    if probes != [] {
      ScanErrorsFromAccounts(probes[1..], codecs);
      ScanAccountsStep(probes, codecs);
      var head := ProcessAccount(probes[0], codecs);
      var rest := ScanAccounts(probes[1..], codecs);
      forall e | e in head.errors + rest.errors
        ensures ScanError(e, probes)
      {
        if e in rest.errors && e != HeaderFailure {
          assert ScanError(e, probes[1..]);
          var j :| 0 <= j < |probes[1..]| && probes[1..][j].session.Refused?
                   && e == ConnectionFailure(probes[1..][j].account.srv);
          assert probes[j + 1] == probes[1..][j];
        } else if e in head.errors && probes[0].session.Refused? {
          assert e == ConnectionFailure(probes[0].account.srv);
        }
      }
    }
  }

  /** No error a scan can produce is the authentication error. */
  lemma ScanErrorIsNotAuthFailure(e: string, probes: seq<Probe>)
    requires ScanError(e, probes)
    ensures e != AuthFailed
  {
  }

  /** The report holds the authentication error exactly when the token
      check fails; a scan never produces that string. */
  lemma AuthErrorIffRejected(token: Option<string>, master: string, probes: seq<Probe>, codecs: Codecs)
    ensures AuthFailed in Run(token, master, probes, codecs).errors <==> !Authorized(token, master)
  {
    if Authorized(token, master) {
      ScanErrorsFromAccounts(probes, codecs);
      var errors := Run(token, master, probes, codecs).errors;
      assert errors == ScanAccounts(probes, codecs).errors;
      if AuthFailed in errors {
        ScanErrorIsNotAuthFailure(AuthFailed, probes);
      }
    }
  }

  /** For a rejected request the accounts make no difference at all. */
  lemma RejectionIgnoresAccounts(token: Option<string>, master: string, p1: seq<Probe>, p2: seq<Probe>, codecs: Codecs)
    requires !Authorized(token, master)
    ensures Run(token, master, p1, codecs) == Run(token, master, p2, codecs) == Report([AuthFailed], [])
  {
  }
}
