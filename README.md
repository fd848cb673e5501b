# nel-rs in Dafny

A model of the Network Error Logging (NEL) client library nel-rs. The library does three things:

- It classifies transport failures into the NEL error-type vocabulary of the W3C Network Error Logging draft (section 6, "Predefined Network Error Types"), for example `dns.name_not_resolved`, `tcp.timed_out` and `tls.cert.date_invalid`. Each type has a phase: `dns`, `connection`, `application` or `unknown`.
- It keeps a report record, `NELReport`, and turns it into the wire envelope `ReportHeader`/`ReportBody`.
- It runs a reporting loop. A bounded queue holds reports waiting to be sent. A retry state machine holds reports whose send failed and resends them on a timer.

Modules, one per concern:

| file | module | models |
|---|---|---|
| `option.dfy` | `Optional` | `Option` |
| `strings.dfy` | `Strings` | lowercasing and substring search (`to_lowercase`, `contains`) |
| `error.dfy` | `NelError` | `src/error.rs`: `Error`, `phase`, `to_string`, `From<&io::Error>` |
| `reqwest_error.dfy` | `ReqwestError` | `src/error/reqwest.rs`: the `source()` chain walks and the hyper flag chain |
| `test_messages.dfy` | `TestMessages` | substring facts about the representative error messages |
| `scenarios.dfy` | `Scenarios` | the outcomes the tests of `src/error/reqwest.rs` assert |
| `report.dfy` | `Report` | `src/report.rs`: `NELReport`, its setters, `FailedReport`, the envelope |
| `reporter.dfy` | `Reporter` | `src/lib.rs`: `submit_report`, the `handle_reports` loop, `handle_report` |

How the Rust code becomes Dafny:

- Classification is pure code, so it becomes functions over datatypes.
- Foreign errors become tagged values:
  - an `io::Error` is its kind, its display text and what `get_ref` finds inside it (nothing, a rustls error, or something else);
  - a hyper error is its eight `is_*` flags, its display text and its `source()` chain;
  - a reqwest error is its display text and its chain.
- The two `while let Some(err) = source` walks are methods with loops (`FromReqwest`, `FromHyper`). Each is proved equal to a specification function (`ReqwestToError`, `HyperToError`) built on a recursive search for the nearest cause of the wanted kind (`FirstHyperIndex`, `FirstIoIndex`).
- `NELReport` is a class whose setters update fields in place.
- The envelope is a function of the object.
- The reporting loop is a class, `ReportLoop`, with one method per event of the `select!`:
  - a report was popped from the queue;
  - the retry timer fired.

  Each method is proved to compute a transition function on a `LoopState` value. The invariants and the accounting of retained reports are proved about those functions.

The code is followed where general descriptions of NEL clients differ from it:

- There is no policy cache, sampler, deduplicator or batching dispatcher.
- A failed send is retried with no attempt limit, whatever the status code (4xx as well as 5xx). A report leaves the retry machinery only by a successful send or by an overflow drop.

## Model

| member | source | states |
|---|---|---|
| NelError.New | src/error.rs:14-23 | the class and subclass are stored exactly as given |
| NelError.Phase | src/error.rs:25-36 | the result is one of the four phases; it is `dns` exactly for class dns, `connection` exactly for tcp/udp/tls, `application` exactly for http/abandoned, and `unknown` for every other class |
| NelError.ToString | src/error.rs:39-49 | class `unknown` gives exactly "unknown" and class `abandoned` gives exactly "abandoned", whatever the subclass; every other error gives its class, a dot and its subclass |
| NelError.ToStringRoundTrip | src/error.rs:39-49 | for a class without a dot, splitting the type string at its first dot gives back class and subclass, except that unknown/abandoned lose their subclass |
| NelError.ToStringInjective | src/error.rs:39-49 | two errors with dot-free classes other than unknown/abandoned have the same type string only if they are equal |
| NelError.PhaseAgreesWithType | src/error.rs:25-49 | the phase of the error read back from a type string is the phase of the original error |
| NelError.FromIo | src/error.rs:51-87 | the result is one of the eleven dns/tcp/tls types or class unknown, so its phase is never `application`; class unknown arises only for an unrecognised kind, with a non-rustls inner error, and then carries the message |
| NelError.IoKindDecides | src/error.rs:57-61 | TimedOut, ConnectionReset, ConnectionRefused and ConnectionAborted give tcp.timed_out/reset/refused/aborted whatever the message and inner error |
| NelError.IoMessagePriority | src/error.rs:63-83 | each message rule decides exactly when it matches the lowercased message and no earlier rule does; when none matches, no inner error gives tcp.failed, a rustls inner error gives tls.protocol.error, and any other inner error gives class unknown |
| NelError.IoMessageCaseInsensitive | src/error.rs:63 | messages that lowercase alike give the same type string and phase, and the same error unless it is unknown |
| NelError.IoClassIgnoresCase | src/error.rs:63-83 | messages that lowercase alike get the same class, and the same error whenever the class is not unknown |
| NelError.IoMessageLowercased | src/error.rs:63 | lowercasing the message beforehand changes neither the type string nor the phase |
| Strings.ToLower | src/error.rs:63 | lowercasing keeps the length, maps each character independently and leaves no upper-case letter |
| ReqwestError.FirstHyperIndex | src/error/reqwest.rs:6-13 | the chain walk stops at the nearest hyper error: no link before it is one, and the link it stops at is one |
| ReqwestError.FirstIoIndex | src/error/reqwest.rs:24-31 | the chain walk stops at the nearest I/O error: no link before it is one, and the link it stops at is one |
| ReqwestError.FromReqwest | src/error/reqwest.rs:1-16 | the loop over the reqwest error's chain returns the classification of the nearest hyper error, or class unknown when there is none |
| ReqwestError.FromHyper | src/error/reqwest.rs:19-76 | the loop over the hyper error's chain returns the I/O classification of the nearest I/O error, or the flag classification when there is none |
| ReqwestError.NearestHyperCauseDecides | src/error/reqwest.rs:6-13 | the first hyper error in a reqwest error's chain decides the result, whatever follows it |
| ReqwestError.NoHyperCauseIsUnknown | src/error/reqwest.rs:15 | a chain without a hyper error gives class unknown with the reqwest error's text, which displays as "unknown" in phase unknown |
| ReqwestError.NearestIoCauseDecides | src/error/reqwest.rs:24-31 | the first I/O error in a hyper error's chain decides the result, overriding every flag |
| ReqwestError.NoIoCauseFlagsDecide | src/error/reqwest.rs:24-35 | without an I/O error in the chain, the flags decide |
| ReqwestError.FromConnectSource | src/error/reqwest.rs:35-52 | a connect error is always tls or tcp, in phase `connection`; with no source it is tcp.failed |
| ReqwestError.ConnectSourcePriority | src/error/reqwest.rs:37-49 | "Hostname mismatch", "certificate has expired" and "self signed certificate in certificate chain" are matched in that order against the source's text; each decides exactly when no earlier text is present, and tcp.failed results exactly when none is |
| ReqwestError.FromHyperFlags | src/error/reqwest.rs:35-75 | a connect error goes to the connect rules; otherwise the result is one of the seven flag errors or class unknown; http results come only from parse/user; abandoned is produced exactly when body_write_aborted is the first flag set; unknown exactly when no flag is set |
| ReqwestError.HyperFlagPriority | src/error/reqwest.rs:53-75 | the first flag set among parse, user, incomplete_message, body_write_aborted, timeout, closed and canceled gives http.response.invalid, http.protocol.error, tcp.closed, abandoned, tcp.timed_out, tcp.reset or tcp.aborted respectively |
| ReqwestError.BodyWriteAbortedIsAbandoned | src/error/reqwest.rs:62-64 | an aborted body write displays as "abandoned" in phase `application` |
| Scenarios.ConnectFailureDecidedByHyper | src/error/reqwest.rs:6-31 | a failed connect is decided by the hyper error at the head of the chain: its nearest I/O cause, or else its immediate source |
| Scenarios.RustlsFailureIsIoError | src/error/reqwest.rs:24-31 | a rustls failure, which comes wrapped in an I/O error, is classified by the I/O rules |
| Scenarios.NativeTlsFailureIsConnectError | src/error/reqwest.rs:35-52 | a native-tls failure, a plain source of the connect error, is classified by the connect rules |
| Scenarios.NoDnsScenario | src/error/reqwest.rs:97-105 | an unresolvable host gives "dns.name_not_resolved" in phase "dns" |
| Scenarios.ExpiredCertRustls | src/error/reqwest.rs:107-119 | an expired certificate under rustls gives "tls.cert.date_invalid" in phase "connection" |
| Scenarios.ExpiredCertNativeTls | src/error/reqwest.rs:107-119 | an expired certificate under native-tls gives "tls.cert.date_invalid" in phase "connection" |
| Scenarios.UntrustedCertRustls | src/error/reqwest.rs:121-133 | an untrusted root under rustls gives "tls.cert.authority_invalid" in phase "connection" |
| Scenarios.UntrustedCertNativeTls | src/error/reqwest.rs:121-133 | an untrusted root under native-tls gives "tls.cert.authority_invalid" in phase "connection" |
| Scenarios.InvalidNameRustls | src/error/reqwest.rs:135-147 | a certificate for another host under rustls gives "tls.cert.name_invalid" in phase "connection" |
| Scenarios.InvalidNameNativeTls | src/error/reqwest.rs:135-147 | a certificate for another host under native-tls gives "tls.cert.name_invalid" in phase "connection" |
| Scenarios.ConnectMatchIsCaseSensitive | src/error/reqwest.rs:38-48 | the connect rules match the text as written: "CERTIFICATE HAS EXPIRED" is tcp.failed |
| Scenarios.IoMatchIgnoresCase | src/error.rs:63-69 | the I/O rules match the message lowercased: "CERT EXPIRED" is tls.cert.date_invalid |
| Report.OptToString | src/report.rs:60-65 | an absent value is the empty string, a present one its text |
| Report.ElapsedMillis | src/report.rs:100-103 | the age is the milliseconds from capture to now, or 0 when now precedes the capture |
| Report.ElapsedMonotone | src/report.rs:100-103 | the age never decreases as the clock advances and grows no faster than it |
| Report.NELReport.constructor | src/report.rs:23-37 | the url is stored unchanged; every other string is empty, both header maps are empty and the status code is 0 |
| Report.NELReport.SetServerIp | src/report.rs:39-41 | sets `server_ip` to the optional value's text and changes nothing else |
| Report.NELReport.SetProtocol | src/report.rs:42-44 | sets `protocol` to the optional value's text and changes nothing else |
| Report.NELReport.SetMethod | src/report.rs:45-47 | sets `method` to the optional value's text and changes nothing else |
| Report.NELReport.SetError | src/report.rs:48-52 | stores the error's phase and type string and changes nothing else; for any error whose class has no dot, the stored phase is then the phase named by the stored type |
| Report.NELReport.ToHeader | src/report.rs:97-119 | the envelope has type "network-error", the report's url, the saturating age and a body that copies every field unchanged with sampling fraction 1.0; a report whose phase agrees with its type yields a well-formed envelope |
| Reporter.HandleReport | src/lib.rs:120-133 | a send succeeds exactly when the response status is 2xx; a transport failure is the HTTP error and any other status is an unexpected-status error carrying that status |
| Reporter.TryPush | src/lib.rs:26-28 | a push onto a queue below 256 entries appends at the back; on a full queue the item is dropped and the queue is unchanged |
| Reporter.TryPushBounded | src/lib.rs:22 | a bounded queue never exceeds 256 entries, and the pushed item is in it exactly when there was room or it already was |
| Reporter.RetryDelay | src/lib.rs:80-84 | the delay is what is left of the 5000 ms retry timeout since the last try, or 10 ms once more than that has elapsed, and never more than 5000 ms |
| Reporter.RetryNotBeforeTimeout | src/lib.rs:80-84 | a retry is never due earlier than 5000 ms after the last try; an overdue one is due 10 ms from now |
| Reporter.Retained | src/lib.rs:38-40 | the reports held for retry: the pending one first, then the failed queue in order |
| Reporter.RetainedBound | src/lib.rs:38-40 | with both queues within capacity, at most 257 failed reports are held |
| Reporter.Submitted | src/lib.rs:26-28 | a submission appends at the back of the report queue unless 256 reports are waiting, in which case it is dropped; nothing else changes and the loop invariant is kept |
| Reporter.Popped | src/lib.rs:46-66 | the popped report leaves the queue and the loop invariant is kept; the rest of the new state is stated by PoppedSentIsNotRetained and PoppedFailureIsRetained |
| Reporter.Fired | src/lib.rs:67-90 | the report queue is untouched and the loop invariant is kept: the timer is armed exactly when a retry is pending, and no delay exceeds 5000 ms; the rest of the new state is stated by FiredFailedQueue and FiredTakesHead |
| Reporter.PoppedSentIsNotRetained | src/lib.rs:48-51 | a report whose first send succeeds only leaves the report queue: the failed queue, the pending retry and the timer are unchanged, so it is retained nowhere |
| Reporter.PoppedFailureIsRetained | src/lib.rs:51-62 | a first-send failure becomes the pending retry with a fresh 5000 ms timer when none is pending; otherwise it joins the back of the failed queue, or is dropped when that queue is full |
| Reporter.PoppedFailureRetainedAtBack | src/lib.rs:51-62 | in retained reports, a first-send failure joins at the back unless a retry is pending and the failed queue is full |
| Reporter.FiredRetainedAccounting | src/lib.rs:67-90 | when the timer fires, the retried report leaves the retained reports only by a successful send or because the failed queue is full; otherwise it goes to the back |
| Reporter.FiredFailedQueue | src/lib.rs:67-89 | after a firing on a non-empty failed queue, the queue is its old tail followed, when the retry failed and there was room, by the retried report stamped with the time of this try; every other entry keeps its time |
| Reporter.FiredTakesHead | src/lib.rs:79-89 | after a firing, the head of the failed queue becomes the pending retry (FIFO), with its computed delay; with an empty queue, the queue stays empty, a failed retry comes straight back with a 5000 ms delay, and a successful one disarms the timer |
| Reporter.ReportLoop.constructor | src/lib.rs:36-40 | the loop starts with empty queues, no pending retry and the timer disarmed, which satisfies the invariant |
| Reporter.ReportLoop.SubmitReport | src/lib.rs:26-28 | `submit_report` performs the submission transition in place and keeps the invariant |
| Reporter.ReportLoop.OnReportPopped | src/lib.rs:46-66 | returns the head report and performs the pop transition in place, keeping the invariant |
| Reporter.ReportLoop.OnRetryTimerFired | src/lib.rs:67-90 | performs the timer transition in place, keeping the invariant |

## Left out

- Strings.ToLower: lowercases the ASCII letters A-Z only. Rust's `to_lowercase` follows Unicode, so non-ASCII letters in a message keep their case here.
- `eprintln!` of the I/O error (src/error.rs:55) is not modelled; it is output only.
- Foreign errors are not modelled as such:
  - `downcast_ref` on trait objects and the `Display` text of foreign error types become tagged `Cause` values and display strings.
  - A chain of `source()` calls becomes a finite sequence, nearest cause first.
- The test scenarios use representative messages from each TLS back end. The exact text depends on the library versions, and the live requests behind the tests are not modelled.
- `serialize` and the `serde_json` encoding, including the renaming of fields to `type` (src/report.rs:54-57, 77, 93), are not modelled. The model stops at the `ReportHeader` value.
- Report.NELReport.ToHeader: the age is an unbounded natural number. The `as usize` truncation of the millisecond count (src/report.rs:103) is not modelled.
- The `f64` sampling fraction is the exact real 1.0.
- `Instant` is an integer count of milliseconds passed in by the caller. Each event reads the clock once. In the source, `last_try` and the elapsed time in the timer arm come from separate `Instant::now()` calls.
- The HTTP POST in `handle_report` becomes a `SendOutcome` input (transport error, or a response status). Not modelled:
  - the endpoint `NEL_ENDPOINT`;
  - the request headers;
  - the request body.
- Async plumbing is not modelled: `select!`, `Fuse`, `pin_mut!`, the injected `sleep` future and `deadqueue`'s async `pop`.
  - The two arms are event methods.
  - The timer is a `Timer` value recording when it was armed and for how long.
  - The model does not require that the delay has elapsed when `OnRetryTimerFired` runs.
  - It does not model which arm `select!` picks when both are ready.
- The global `REPORT_QUEUE` is a field of `ReportLoop`. Calls from concurrent tasks are modelled as one call after another.
- `examples/hyper.rs` is not part of this model. It is example wiring, and it calls functions that `src/lib.rs` does not define.
