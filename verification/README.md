# Unread-mail aggregator, modelled in Dafny

The modelled system is a small PHP endpoint, `php_src/imap.php`. It checks a
shared token, then visits every configured mail account in order. For each
account it opens an IMAP session, searches for UNSEEN messages (section 6.4.4
of RFC 3501) and reads each message header. It returns one report: a list of
error strings and a list of mail records. A failed connection or a failed
header fetch is recorded as an error string and never stops the batch.

The model has five files:

- `wrappers.dfy`: module `Wrappers`, an `Option` type. It stands for an unset
  query parameter, for a header fetch that returned false, and for a subject
  whose decoding returned false.
- `addresses.dfy`: module `Addresses`, holding `getFrom` and `getTo` as
  `GetFrom` and `GetTo`.
- `scan.dfy`: module `Scan`, holding the accounts, headers, mail records and
  the report as immutable datatypes. The scan is a pure fold:
  `ProcessMessages` is the inner loop, `ProcessAccount` the body for one
  account, `ScanAccounts` the outer loop and `Run` the token-gated whole.
- `scan_properties.dfy`: module `ScanProperties`, holding lemmas that relate
  several calls. They cover splitting a batch, isolation of failures, output
  order and the authentication error.
- `script.dfy`: module `Script`, the handler written the way the script is
  written. Two lists grow by appending inside the outer and inner `foreach`
  loops. It is proved to compute exactly `Scan.Run`.

The IMAP calls are inputs. Each account comes as a `Probe` holding the
outcome of its calls:

- `Refused` means `imap_open` failed.
- `Opened(NoUnseen)` means the search result was falsy.
- `Opened(Unseen(fetches))` gives one `Option<Header>` per found message, in
  search order. `None` means `imap_headerinfo` failed for that message.

The text conversions are opaque functions in a `Codecs` value:
`iconv_mime_decode` of the subject, `imap_utf8` of the summaries, and the
date reformat to `d/m/Y H:i`. The script calls `iconv_mime_decode` with
mode 0, that is without `ICONV_MIME_DECODE_CONTINUE_ON_ERROR`, so a malformed
encoded-word or an unknown charset makes it return `false`. That `false` is stored as the subject, so the model's subject
decoder returns an `Option` and a record's subject is `None` in that case.

Where the code does something a reader might not expect, the model
follows the code:

- The rejection message is spelt `"Authentification Failed"`, as in the code.
- The code never closes a session, so no release step is modelled.

## Model

| member | source | states |
|---|---|---|
| Addresses.Destinations | php_src/imap.php:20-22 | the built list has one `mailbox@host` entry per address, at the same position |
| Addresses.GetFrom | php_src/imap.php:10-17 | the sender summary is empty exactly when the list is empty; otherwise it is the first sender's `mailbox@host` |
| Addresses.GetFromIgnoresLaterSenders | php_src/imap.php:11-13 | two sender lists with the same first entry give the same summary, whatever follows |
| Addresses.GetTo | php_src/imap.php:19-34 | the summary is empty exactly when there are no recipients; one recipient gives that address; two or more give `login + " + others"` when the login equals a built address, else the first address followed by `" + others"` |
| Addresses.GetToLeadsWithRecipient | php_src/imap.php:23-32 | a non-empty summary is some recipient's own address, followed by `" + others"` exactly when there are two or more recipients |
| Addresses.AddressedIgnoresOrder | php_src/imap.php:29 | whether the login is among the recipients does not depend on their order |
| Addresses.GetToStableUnderReordering | php_src/imap.php:28-32 | with two or more recipients, reordering them keeps the summary when the login is among them or the first entry stays first |
| Scan.Failures | php_src/imap.php:44-60 | every searched message is either fetched or counted as a failure, never both |
| Scan.MakeMail | php_src/imap.php:47-56 | a record keeps the header's `udate` and the account's `webmail` unchanged; the subject is the MIME-decoded subject, possibly `false` (`None`), and the date is the reformatted header date; `from` is the converted first sender's `mailbox@host`, or the converted empty string when there is none; `to` is the converted empty string with no recipient, the one recipient's address, or for two or more the login when it is among them and otherwise the first address, followed by `" + others"` |
| Scan.MessageReport | php_src/imap.php:45-60 | one message yields exactly one entry: a mail when its header was fetched, otherwise the single error `"imap_headerinfo failure"` |
| Scan.ProcessMessages | php_src/imap.php:44-61 | one mail per fetched header and one error per failed fetch, every error being `"imap_headerinfo failure"`; so mails plus errors equal the number of searched messages |
| Scan.ProcessAccount | php_src/imap.php:41-65 | a refused connection gives exactly one `"Connection to <srv> server failed"` error and no mail; otherwise mails plus errors equal the number of searched messages, and zero when the search found nothing |
| Scan.ScanAccounts | php_src/imap.php:40-66 | mails plus errors equal the sum over the accounts of one per refused connection and one per searched message |
| Scan.Run | php_src/imap.php:39-70 | with the line-39 token check as the predicate `Authorized` (the parameter is set and equals the secret): a failing check gives exactly `["Authentification Failed"]` and no mail, whatever the accounts; a passing check gives one mail or error per searched message and one error per refused account |
| ScanProperties.MailIgnoresServerAndPassword | php_src/imap.php:49-56 | the server address and password never reach a record: accounts with the same login and webmail link give the same record |
| ScanProperties.MessagesInSearchOrder | php_src/imap.php:44-56 | the mails of one open session match its fetched headers position by position, in search order; each keeps the header's `udate` and the account's `webmail` |
| ScanProperties.AccountMailsTagged | php_src/imap.php:41-61 | the mails of one account match, position by position, its fetched headers paired with that account; a refused or empty account gives none |
| ScanProperties.MessagesConcat | php_src/imap.php:44-61 | processing two runs of messages in a row gives the two reports appended |
| ScanProperties.HeaderFailureSkipsOnlyThatMessage | php_src/imap.php:44-61 | a failed fetch between two runs of messages adds one header failure and leaves the mails and errors of both runs unchanged |
| ScanProperties.ScanConcat | php_src/imap.php:40-66 | scanning two lists of accounts in a row gives the two reports appended, so no account affects another |
| ScanProperties.RefusedAccountIsolated | php_src/imap.php:40-65 | a refused account between two lists of accounts adds only its connection error, and the accounts after it are still scanned |
| ScanProperties.MailsInAccountThenSearchOrder | php_src/imap.php:40-56 | the mails match, position by position, the fetched headers listed in account order and then search order; each carries its header's `udate` and its account's `webmail` |
| ScanProperties.ErrorsAccountByAccount | php_src/imap.php:40-66 | the errors are each account's errors in account order: its connection error, or one header failure per failed fetch |
| ScanProperties.ScanErrorsFromAccounts | php_src/imap.php:40-66 | every error of a scan is `"imap_headerinfo failure"` or the connection error of an account whose session was refused |
| ScanProperties.ScanErrorIsNotAuthFailure | php_src/imap.php:59-69 | neither error a scan can produce equals the authentication error |
| ScanProperties.AuthErrorIffRejected | php_src/imap.php:39-70 | the report holds `"Authentification Failed"` if and only if the token check fails |
| ScanProperties.RejectionIgnoresAccounts | php_src/imap.php:68-70 | a rejected request gives the same fixed report for any two account lists |
| Script.Handle | php_src/imap.php:36-70 | the append-in-loops handler returns exactly the report of `Scan.Run` |
| Script.HandleAccount | php_src/imap.php:41-65 | handling one account appends exactly that account's report to the lists so far |
| Script.HandleMessages | php_src/imap.php:44-61 | the per-message loop appends exactly the report of `ProcessMessages` to the lists so far |

## Left out

- HTTP header emission and reflection of the request origin (lines 2-6) are left out. They are transport I/O.
- Loading `accounts.php` (line 8) is left out. The accounts, the secret and the `p` parameter are inputs.
- JSON encoding of the report (line 72) is left out. The report is a datatype.
- `imap_open`, `imap_search` and `imap_headerinfo` are abstracted: each account comes with the outcome those calls would produce (`Probe`). They are network calls into a foreign library.
- The message numbers returned by the search are dropped. They are only passed back to `imap_headerinfo`, whose outcome is already an input.
- `iconv_mime_decode`, `imap_utf8` and the `DateTime` parse and format are opaque functions; only the `false` result of the first is represented. Their behaviour lies in library code.
- An unparseable date makes `new DateTime` throw, which ends the whole request without the JSON report. This is not modelled: the date conversion is a total opaque function.
- Loose equality is not modelled. `==` on the token (line 39) and `in_array` (line 29) are modelled as exact string equality, though PHP compares loosely.
- A header without a From field is modelled as an empty sender list, so its summary is empty; this follows PHP before version 8, where `count` of the missing field (line 11) warns and gives 0. On PHP 8 that `count` throws a TypeError and the request ends without the JSON report, which is not modelled. A header without a To field is exact: the `foreach` at line 21 skips the missing field, so it acts as an empty recipient list.
- Session release is not modelled, because the script never calls `imap_close`.
- Concurrency, timeouts and retries are not modelled. The script has none.
