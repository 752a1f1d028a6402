/** The request handler as the script writes it: two lists that start
    empty and grow by appending, an outer loop over the accounts and an
    inner loop over the unseen messages. It computes the same report as
    `Scan.Run`. */
module Script {
  import opened Wrappers
  import opened Scan
  import opened ScanProperties

  /** Lines 36 to 70: the token check, then every account in order. */
  method Handle(token: Option<string>, master: string, probes: seq<Probe>, codecs: Codecs)
    returns (errors: seq<string>, mails: seq<Mail>)
    ensures Report(errors, mails) == Run(token, master, probes, codecs)
    ensures !Authorized(token, master) ==> errors == [AuthFailed] && mails == []
  {
    errors := [];
    mails := [];
    if token.Some? && token.value == master {
      var i := 0;
      while i < |probes|
        invariant 0 <= i <= |probes|
        invariant Report(errors, mails) == ScanAccounts(probes[..i], codecs)
      {
        errors, mails := HandleAccount(probes[i], codecs, errors, mails);
        NextAccount(probes, i, codecs);
        i := i + 1;
      }
      assert probes[..i] == probes;
    } else {
      errors := errors + [AuthFailed];
    }
  }

  /** Lines 41 to 65 for one account, appending to the lists so far. */
  method HandleAccount(p: Probe, codecs: Codecs, errors0: seq<string>, mails0: seq<Mail>)
    returns (errors: seq<string>, mails: seq<Mail>)
    ensures Report(errors, mails) == Join(Report(errors0, mails0), ProcessAccount(p, codecs))
  {
    errors, mails := errors0, mails0;
    match p.session {
      case Refused =>
        errors := errors + [ConnectionFailure(p.account.srv)];
      case Opened(search) =>
        if search.Unseen? {
          errors, mails := HandleMessages(p.account, search.fetches, codecs, errors, mails);
        } else {
          assert mails0 + [] == mails0 && errors0 + [] == errors0;
        }
    }
  }

  /** Lines 44 to 61: one header fetch per searched message, appending to
      the lists so far. */
  method HandleMessages(account: Account, fetches: seq<Option<Header>>, codecs: Codecs,
                        errors0: seq<string>, mails0: seq<Mail>)
    returns (errors: seq<string>, mails: seq<Mail>)
    ensures Report(errors, mails) == Join(Report(errors0, mails0), ProcessMessages(account, fetches, codecs))
  {
    errors, mails := errors0, mails0;
    ghost var start := Report(errors0, mails0);
    var k := 0;
    while k < |fetches|
      invariant 0 <= k <= |fetches|
      invariant Report(errors, mails) == Join(start, ProcessMessages(account, fetches[..k], codecs))
    {
      match fetches[k] {
        case Some(h) =>
          mails := mails + [MakeMail(account, h, codecs)];
        case None =>
          errors := errors + [HeaderFailure];
      }
      NextMessage(account, fetches, k, codecs);
      JoinAssociative(start, ProcessMessages(account, fetches[..k], codecs), MessageReport(account, fetches[k], codecs));
      k := k + 1;
    }
    assert fetches[..k] == fetches;
  }

  /** One more message extends the processed prefix by its own report. */
  lemma NextMessage(account: Account, fetches: seq<Option<Header>>, k: nat, codecs: Codecs)
    requires k < |fetches|
    ensures ProcessMessages(account, fetches[..k + 1], codecs)
         == Join(ProcessMessages(account, fetches[..k], codecs), MessageReport(account, fetches[k], codecs))
  {
    var one := [fetches[k]];
    assert fetches[..k + 1] == fetches[..k] + one;
    MessagesConcat(account, fetches[..k], one, codecs);
    assert one[1..] == [];
  }

  /** One more account extends the scanned prefix by its own report. */
  lemma NextAccount(probes: seq<Probe>, i: nat, codecs: Codecs)
    requires i < |probes|
    ensures ScanAccounts(probes[..i + 1], codecs)
         == Join(ScanAccounts(probes[..i], codecs), ProcessAccount(probes[i], codecs))
  {
    var one := [probes[i]];
    assert probes[..i + 1] == probes[..i] + one;
    ScanConcat(probes[..i], one, codecs);
    assert one[1..] == [];
  }
}
