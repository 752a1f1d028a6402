/** The scan-and-aggregate part of the script: after the token check, every
    configured account is opened, searched for UNSEEN messages (section
    6.4.4 of RFC 3501) and each message header turned into a mail record;
    every failure becomes an error string and the batch goes on.

    The IMAP calls are abstracted: each account comes with the outcome
    those calls would produce (a `Probe`), and the text conversions of the
    PHP library are opaque functions supplied in a `Codecs` value. */
module Scan {
  import opened Wrappers
  import opened Addresses

  /** One configured account (`srv`, `login`, `pass`, `webmail` keys). */
  datatype Account = Account(srv: string, login: string, pass: string, webmail: string)

  /** The header fields of one message that the script reads. */
  datatype Header = Header(subject: string, from: seq<Address>, to: seq<Address>, date: string, udate: int)

  /** One record of the `mails` output. The subject is `None` when its
      decoding failed, which the script emits as `false`. */
  datatype Mail = Mail(subject: Option<string>, from: string, to: string, date: string, udate: int, webmail: string)

  /** The library conversions applied to header text: MIME encoded-word
      decoding of the subject (`None` where `iconv_mime_decode`, called with
      mode 0, that is without `ICONV_MIME_DECODE_CONTINUE_ON_ERROR`, returns
      `false`), `imap_utf8` of the address
      summaries, and the parse-and-reformat of the date into `d/m/Y H:i`. */
  datatype Codecs = Codecs(mimeDecode: string -> Option<string>, utf8: string -> string, formatDate: string -> string)

  /** What `imap_search(..., "UNSEEN")` yields: a falsy result, or the
      matching messages in search order, each with the outcome of its
      `imap_headerinfo` call (`None` when that call failed). */
  datatype SearchOutcome = NoUnseen | Unseen(fetches: seq<Option<Header>>)

  /** What `imap_open` yields for one account. */
  datatype Session = Refused | Opened(search: SearchOutcome)

  /** An account together with the outcome of the IMAP calls made for it. */
  datatype Probe = Probe(account: Account, session: Session)

  /** The pair of lists the script emits. */
  datatype Report = Report(errors: seq<string>, mails: seq<Mail>)

  const AuthFailed: string := "Authentification Failed"
  const HeaderFailure: string := "imap_headerinfo failure"

  function ConnectionFailure(srv: string): string
  {
    "Connection to " + srv + " server failed"
  }

  const Empty: Report := Report([], [])

  /** Appending one report after another, list by list. */
  function Join(a: Report, b: Report): Report
  {
    Report(a.errors + b.errors, a.mails + b.mails)
  }

  /** The record built from one fetched header of `account`: the arrival
      time and the webmail link pass through untouched, and the recipient
      summary is taken relative to the account's own login. */
  function MakeMail(account: Account, h: Header, codecs: Codecs): (m: Mail)
    ensures m.udate == h.udate && m.webmail == account.webmail
    ensures m.subject == codecs.mimeDecode(h.subject) && m.date == codecs.formatDate(h.date)
    ensures h.from == [] ==> m.from == codecs.utf8("")
    ensures h.from != [] ==> m.from == codecs.utf8(Format(h.from[0]))
    ensures h.to == [] ==> m.to == codecs.utf8("")
    ensures |h.to| == 1 ==> m.to == codecs.utf8(Format(h.to[0]))
    ensures |h.to| >= 2 && Addressed(account.login, h.to) ==> m.to == codecs.utf8(account.login + Others)
    ensures |h.to| >= 2 && !Addressed(account.login, h.to) ==> m.to == codecs.utf8(Format(h.to[0]) + Others)
  {
    Mail(codecs.mimeDecode(h.subject),
         codecs.utf8(GetFrom(h.from)),
         codecs.utf8(GetTo(account.login, h.to)),
         codecs.formatDate(h.date),
         h.udate,
         account.webmail)
  }

  /** The headers that were retrieved, kept in search order. */
  function Fetched(fetches: seq<Option<Header>>): seq<Header>
  {
    if fetches == [] then []
    else (if fetches[0].Some? then [fetches[0].value] else []) + Fetched(fetches[1..])
  }

  /** How many header fetches failed. */
  function Failures(fetches: seq<Option<Header>>): (n: nat)
    ensures n + |Fetched(fetches)| == |fetches|
  {
    if fetches == [] then 0
    else (if fetches[0].None? then 1 else 0) + Failures(fetches[1..])
  }

  /** The report for one message: its record, or one header failure. */
  function MessageReport(account: Account, fetch: Option<Header>, codecs: Codecs): (r: Report)
    ensures |r.mails| + |r.errors| == 1
    ensures fetch.Some? <==> |r.mails| == 1
    ensures fetch.None? ==> r.errors == [HeaderFailure]
    ensures fetch.Some? ==> r.mails[0].udate == fetch.value.udate && r.mails[0].webmail == account.webmail
  {
    match fetch
    case Some(h) => Report([], [MakeMail(account, h, codecs)])
    case None => Report([HeaderFailure], [])
  }

  /** The inner `foreach` over the search result of one open session. */
  function ProcessMessages(account: Account, fetches: seq<Option<Header>>, codecs: Codecs): (r: Report)
    ensures |r.mails| == |Fetched(fetches)|
    ensures |r.errors| == Failures(fetches)
    ensures forall e :: e in r.errors ==> e == HeaderFailure
    ensures |r.mails| + |r.errors| == |fetches|
  {
    if fetches == [] then Empty
    else Join(MessageReport(account, fetches[0], codecs), ProcessMessages(account, fetches[1..], codecs))
  }

  /** The headers of an account that end up as mail records. */
  function ProbeHeaders(p: Probe): seq<Header>
  {
    match p.session
    case Opened(Unseen(fetches)) => Fetched(fetches)
    case _ => []
  }

  /** How many mails or errors an account is due to contribute: one error
      for a refused connection, one entry per searched message otherwise. */
  function Attempts(p: Probe): nat
  {
    match p.session
    case Refused => 1
    case Opened(NoUnseen) => 0
    case Opened(Unseen(fetches)) => |fetches|
  }

  /** The body of the outer `foreach` for one account. */
  function ProcessAccount(p: Probe, codecs: Codecs): (r: Report)
    ensures p.session.Refused? ==> r == Report([ConnectionFailure(p.account.srv)], [])
    ensures |r.mails| + |r.errors| == Attempts(p)
  {
    match p.session
    case Refused => Report([ConnectionFailure(p.account.srv)], [])
    case Opened(NoUnseen) => Empty
    case Opened(Unseen(fetches)) => ProcessMessages(p.account, fetches, codecs)
  }

  /** The sum of `Attempts` over the accounts. */
  function TotalAttempts(probes: seq<Probe>): nat
  {
    if probes == [] then 0 else Attempts(probes[0]) + TotalAttempts(probes[1..])
  }

  /** True of the errors a scan can produce: a header failure, or the
      connection failure of an account that refused the session. */
  predicate ScanError(e: string, probes: seq<Probe>)
  {
    e == HeaderFailure ||
    exists j :: 0 <= j < |probes| && probes[j].session.Refused? && e == ConnectionFailure(probes[j].account.srv)
  }

  /** The outer `foreach` over the configured accounts, in order. */
  function ScanAccounts(probes: seq<Probe>, codecs: Codecs): (r: Report)
    ensures |r.mails| + |r.errors| == TotalAttempts(probes)
  {
    if probes == [] then Empty
    else Join(ProcessAccount(probes[0], codecs), ScanAccounts(probes[1..], codecs))
  }

  /** The token check: the `p` query parameter must be set and equal the
      configured secret. */
  predicate Authorized(token: Option<string>, master: string): (b: bool)
    ensures b ==> token.Some?
    ensures b <==> token == Some(master)
  {
    token.Some? && token.value == master
  }

  /** Lines 36 to 70 of the script: the whole report for one request. */
  function Run(token: Option<string>, master: string, probes: seq<Probe>, codecs: Codecs): (r: Report)
    ensures !Authorized(token, master) ==> r == Report([AuthFailed], [])
    ensures Authorized(token, master) ==> |r.mails| + |r.errors| == TotalAttempts(probes)
  {
    if Authorized(token, master) then ScanAccounts(probes, codecs) else Report([AuthFailed], [])
  }
}
