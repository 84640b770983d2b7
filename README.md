# Verb-tampering access-control probe

A model of the `htaccess` attack module of the Wapiti web-vulnerability scanner
(`ModuleHtaccess` in `wapitiCore/attack/mod_htaccess.py`). This module takes a resource
whose original request was refused with 401, 402, 403 or 407. It requests the same path
again with the made-up HTTP method `ABC`. If the reply is no longer a denial, it reports a
medium-severity "weak restriction bypass" finding.

- `htaccess.dfy`, module `Htaccess`, has the following:
  - the data: `Request`, the tampered request `ProbeRequest` (path and verb, as a finding
    records it), the `Probe` handed to the transport (that request plus its headers), the
    transport `Outcome` (`TransportError` or
    `Response(status, content)`), `Finding` and the probe's session state `ProbeState`.
  - the eligibility rule `Eligible` and the probe builder `ProbeFor`.
  - the classifier `IsBypass` and the state transition `Step`.
  - the class `ModuleHtaccess`. Its fields `attackedGet` (the ledger of probed paths),
    `networkErrors` and `findings` change in place. `MustAttack` reads them. `Attack`
    builds the header map step by step, sends the probe and updates the fields. Its
    contract ties the new state to `Step`.
- `scan_session.dfy`, module `ScanSession`, covers a whole session. A scan session
  presents resources in order. Each resource is first checked with the eligibility rule,
  and only an eligible one is attacked. The lemmas state what this calling convention
  guarantees over any sequence of resources:
  - at most one probe per path gets a response;
  - the ledger records exactly the paths whose probe got a response;
  - the ledger never holds a path twice;
  - every transport failure is counted;
  - findings never outnumber the recorded paths.

The transport is not modelled. What it answers is the `Outcome` argument of `Attack`, and
the probe it is handed is `Attack`'s result. The report sink is modelled as appending to
`findings`.

## Model

| member | source | states |
|---|---|---|
| `Htaccess.ModuleHtaccess.MustAttack` | wapitiCore/attack/mod_htaccess.py:43-47 | the answer is the eligibility rule on the current ledger: true iff the path is not in `attackedGet` and the original status is 401, 402, 403 or 407; it changes no state |
| `Htaccess.AttackedPathNeverEligible` | wapitiCore/attack/mod_htaccess.py:43-45 | a path already in the ledger is never eligible, whatever its status |
| `Htaccess.EligibleStatuses` | wapitiCore/attack/mod_htaccess.py:47 | for a path not yet probed, eligible iff the status is in {401, 402, 403, 407}; 200, 404 and 500 are rejected |
| `Htaccess.ProbeFor` | wapitiCore/attack/mod_htaccess.py:49-56 | the tampered request targets the request's path with method `ABC`; the headers sent with it hold at most `referer`, present iff the original referer is non-empty and then equal to it |
| `Htaccess.IsBypass` | wapitiCore/attack/mod_htaccess.py:63 | a bypass iff the probe status is outside 400..499 or is 404; a bypass status is never one of the blocked statuses |
| `Htaccess.ClassifierBoundaries` | wapitiCore/attack/mod_htaccess.py:63-64 | 399, 404 and 500 are bypasses; 400, 401, 403, 405 and 499 are not |
| `Htaccess.Step` | wapitiCore/attack/mod_htaccess.py:57-86 | a transport error adds 1 to the error count and changes nothing else; a response appends the path to the ledger once and keeps the error count; old findings are kept, and exactly one is added iff the response is a bypass; it is medium, carries the request's path id, the category, the catalog code, the header-free tampered request (path, `ABC`) and the text "<path> bypassable weak restriction" |
| `Htaccess.ModuleHtaccess.Attack` | wapitiCore/attack/mod_htaccess.py:49-86 | the probe sent (tampered request plus headers) is `ProbeFor(request)`, and the new fields are `Step` of the old ones |
| `Htaccess.StepThenSkip` | wapitiCore/attack/mod_htaccess.py:44-86 | after a response, no request with the same path is eligible; after a transport error, eligibility is unchanged |
| `ScanSession.PresentLedger` | wapitiCore/attack/mod_htaccess.py:86 | presenting a resource appends its path to the ledger exactly when a probe for it got a response, and otherwise leaves the ledger alone |
| `ScanSession.RunLedgerGrows` | wapitiCore/attack/mod_htaccess.py:86 | over a session the ledger only grows: the initial ledger is a prefix of the final one |
| `ScanSession.AtMostOneCompletedProbe` | wapitiCore/attack/mod_htaccess.py:43-86 | over any session, at most one probe for a path gets a response, and none if the path was already recorded |
| `ScanSession.RecordedIffCompleted` | wapitiCore/attack/mod_htaccess.py:57-86 | a path is in the final ledger iff it was there at the start or a probe for it got a response |
| `ScanSession.RunKeepsLedgerDistinct` | wapitiCore/attack/mod_htaccess.py:43-86 | a ledger without repeated paths stays without repeated paths |
| `ScanSession.RunCountsFailures` | wapitiCore/attack/mod_htaccess.py:57-61 | the final error count is the initial one plus the number of probes that failed in the transport |
| `ScanSession.FindingsWithinLedger` | wapitiCore/attack/mod_htaccess.py:63-86 | the findings added in a session never outnumber the paths added to the ledger |
| `ScanSession.RetryAfterTransportError` | wapitiCore/attack/mod_htaccess.py:57-61 | a failed probe leaves the path eligible; the retry that gets a response records it once, and the error count is up by one |
| `ScanSession.Scenarios` | wapitiCore/attack/mod_htaccess.py:43-86 | 403 then 404 adds the bypass finding; 401 then 403 adds no finding but records the path; an original 200 is never probed, whatever the transport would answer |

Details of `mod_htaccess.py` that the model keeps:

- A probe that fails in the transport is not recorded (`mod_htaccess.py:59-61, 86`), so
  the path stays eligible.
- The status change appears only in the log lines (`mod_htaccess.py:77-80`). The finding's
  `info` is the probe URL followed by " bypassable weak restriction".
- The referer header goes only to the transport call (`mod_htaccess.py:52-54, 58`). The
  request a finding records is built without it (`mod_htaccess.py:56, 72`).

## Left out

- The HTTP transport (`crawler.async_send`) and its `RequestError`: the transport's answer
  is a parameter (`Outcome`), and all transport-level failures are one case.
- async/await scheduling and concurrent probes. The model is sequential. Because
  `attack` awaits the transport (`mod_htaccess.py:58`) between the ledger check (:44) and
  the append (:86), two resources with the same path (a GET and a POST, since
  `do_get` and `do_post` are both set at :40-41) can both be probed when run concurrently.
  `ScanSession.AtMostOneCompletedProbe` and `ScanSession.RunKeepsLedgerDistinct` hold only
  for the sequential order, where each attack finishes before the next check.
- The log lines (`log_red`, `log_verbose`, `mod_htaccess.py:68, 76-84`), including the
  response body printed for manual checking. They are output only. The body is carried in
  `Outcome` and ignored.
- Localisation (`_`). The finding's text is the untranslated template.
- `wapitiCore/definitions/htaccess.py` is not part of this model. `Category` and `WstgCode`
  stand for its `NAME` and `WSTG_CODE`, and no proof depends on their values.
- `Request`'s other attributes and URL normalisation: the probe's URL is its path.
- The `Attack` base class (where `attacked_get`, `network_errors` and `add_vuln_medium`
  live) is not part of this model. The ledger starts empty, the error counter starts at
  zero, and reporting appends a record to `findings`.
- `Htaccess.ModuleHtaccess.Attack` does not require eligibility, because `attack` in
  `mod_htaccess.py` does not check it either. If a caller skips `MustAttack`, the path is appended again. The
  no-duplicate lemmas of `ScanSession` assume the gate is applied first.
- `wapitiCore/main/getcookie.py` (an interactive cookie-capture command) is not part of
  this model.
