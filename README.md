# SocialPhantom campaign engine in Dafny

This project models the campaign engine of SocialPhantom, a social-engineering simulation toolkit, and proves properties of the model. It covers four parts:

- **Campaign manager** (`core/campaign_manager.py`). Campaigns live in a directory with one `config.json` per campaign. Creating, running, loading and listing campaigns are modelled. So is the event aggregator, which takes `email_sent`, `click`, `credential`, `bec_reply` and `bec_transfer` events off a queue. For each event it bumps a counter, recomputes the success rate and saves the campaign.
- **Email sender** (`modules/email_sender.py`). It builds a phishing message: it substitutes `{{key}}` placeholders, picks a subject and puts a tracking image before `</body>`. It also reads the attachments and queues the message. A worker then sends it, making up to three attempts with 1 s and 2 s of backoff.
- **BEC simulator** (`modules/bec_simulator.py`). It looks up a template, fills in the target's fields, sends the message once and starts a tracking record for the recipient.
- **Tracking server** (`modules/tracking_server.py`). A GET on `/track/<identity>` marks that identity's record as opened and answers with a 1x1 image. Any other path gets a 404.

Dafny modules:

- `Common` holds `Option`, `Byte`, `Timestamp` and Python's truthiness of an optional string.
- `Text` holds Python's `str.replace`, `str.split`, `str.join`, `in`, `lower` and the placeholder loop.
- `CampaignManagement` holds the class `CampaignManager`.
- `EmailSending` holds the class `EmailSender`.
- `BecSimulation` holds the classes `BecSimulator` and `TrackingTable`.
- `TrackingServer` holds the class `TrackingRequestHandler`.

The objects whose fields the source changes in place are classes:

- the campaign store and the event queue;
- the outbox of the email sender;
- the tracking dictionary, which the BEC simulator shares with the tracking server.

Each method is proved against a specification function, such as `Drain`, `NewCampaign`, `Started`, `RenderedHtml`, `RetryOutcome` or `HandleGet`. The lemmas state what the source promises about those functions.

Where the code is wrong (see Findings), the main model is the repaired code, and a separate member models the code as written. In particular, `ProcessEvent`, `DrainEvents`, `Drain` and the lemmas about the drain take `_save_campaign` to write the updated campaign back; `MonitorAsWritten` is the drain as written.

Calls to the outside world become parameters:

- the clock becomes `now: Timestamp`;
- the random subject choice becomes a nondeterministic pick from `SubjectChoices`;
- MD5 becomes the function parameter `md5Hex`;
- an SMTP session becomes a sequence of attempt outcomes or, for the BEC send, two outcomes: whether the connection and login succeed, and whether the server accepts the message;
- a file becomes its contents, or `None` when it cannot be read;
- an entry of the BEC templates directory is a readable file with its text, a file that cannot be read, or a sub-directory;
- the order in which a directory yields its entries is a parameter (`listing`).

Three behaviours of the code that are easy to misread:

- **Double counting of sends.** The email worker emits no event. `run_campaign` adds each successful send to `emails_sent` itself and also queues an `email_sent` event for it, so once `_save_campaign` exists, each send is counted twice (`RunThenDrainCountsTwice`). The double count is reachable for BEC runs once the drain saves. For PHISHING runs it needs a second repair: even with `hashlib` imported, `run_campaign` passes the target's dictionary as the recipient and `encode` fails on it (campaign_manager.py:126), so every send returns False (`PhishingRunAsWritten`). As written neither count survives: the drain dies before saving (campaign_manager.py:57), and a PHISHING send never succeeds (email_sender.py:86); see Findings.
- **Open time.** The tracking server sets `opened` and overwrites `open_time` on every hit, not only the first (`RepeatHits`).
- **Zero total.** With a zero total the stored rate is the integer `0`, which the model writes as `0.0`.

## Model

| member | source | states |
|---|---|---|
| Text.Substitute | SocialPhantom/modules/email_sender.py:74-76 | the loop over the variables yields `SubstituteAll`: each `{{key}}` replaced in turn, in the variables' order |
| Text.ReplaceAll | SocialPhantom/modules/email_sender.py:87 | replacing a pattern by itself changes nothing, and a replacement of the pattern's length keeps the length |
| Text.Split | SocialPhantom/modules/tracking_server.py:17 | at least one piece, and joining the pieces with the separator gives back the text |
| Text.ReplaceInserts | SocialPhantom/modules/email_sender.py:87 | when the pattern occurs, the replacement occurs in the result |
| Text.ReplaceIsJoinOfSplit | SocialPhantom/modules/email_sender.py:87 | `s.replace(p, r)` equals `r.join(s.split(p))` for every string and non-empty pattern |
| Text.NoOccurrenceUnchanged | SocialPhantom/modules/email_sender.py:87 | a text without the pattern is returned unchanged by `replace` |
| Text.NoPlaceholderUnchanged | SocialPhantom/modules/bec_simulator.py:47-48 | a text with no `{{` is left unchanged by any sequence of placeholder substitutions |
| Text.ContainsInfix | SocialPhantom/modules/email_sender.py:136-146 | a string glued into a template occurs in the result |
| Text.Lower | SocialPhantom/modules/email_sender.py:148 | `lower()` keeps the length and maps every character to its lower-case form |
| Text.SplitHeadIsTakeUntil | SocialPhantom/modules/tracking_server.py:17 | the first piece of a split on one character is the text before its first occurrence |
| Text.SplitAtFirst | SocialPhantom/modules/tracking_server.py:17 | splitting `w + c + rest` where `w` has no `c` yields `w`, then the pieces of `rest` |
| Text.TakeUntilAppend | SocialPhantom/modules/tracking_server.py:15 | cutting at the first `c` is unaffected by what follows a prefix free of `c` |
| CampaignManagement.SuccessRate | SocialPhantom/core/campaign_manager.py:49-55 | for type BEC the rate is transfers out of replies, otherwise credentials out of sends: 0 with no positive total or no successes, 1 when every one succeeded, and within [0, 1] while the successes do not exceed the total |
| CampaignManagement.Count | SocialPhantom/core/campaign_manager.py:38-47 | the `if/elif` chain lowers no counter and raises the sum of the five counters by exactly one for the five known event types and by none otherwise; the rate is not touched |
| CampaignManagement.Tally | SocialPhantom/core/campaign_manager.py:38-55 | the stored rate is the one derived from the counters after the bump, not before it |
| CampaignManagement.Collides | SocialPhantom/core/campaign_manager.py:61-63 | `mkdir` fails for every existing campaign directory, and beyond those only for names that resolve to the campaigns directory or its parent (`""`, `.`, `..`) |
| CampaignManagement.Started | SocialPhantom/core/campaign_manager.py:120-147 | the saved record is running and started now, keeps its name, type and creation time, and has `emails_sent` raised by k; every other counter and the rate are left as they were |
| CampaignManagement.NewCampaign | SocialPhantom/core/campaign_manager.py:66-89 | never started; each of `name`, `type`, `created`, `status` and `stats` is the supplied value when the config has that key, replacing the default whole, and otherwise the default (the given name and type, now, `draft`, zero stats); without overrides the zero stats' rate agrees with the counters |
| CampaignManagement.ApplyEvent | SocialPhantom/core/campaign_manager.py:33-57 | processing an event adds and removes no campaign |
| CampaignManagement.Drain | SocialPhantom/core/campaign_manager.py:27-30 | draining the queue adds and removes no campaign |
| CampaignManagement.SuccessCount | SocialPhantom/core/campaign_manager.py:125-127 | the number of successful sends is at most the number of targets |
| CampaignManagement.NoSuccessIffAllFailed | SocialPhantom/core/campaign_manager.py:125-127 | no send is counted exactly when every send call returned False |
| CampaignManagement.SentEvents | SocialPhantom/core/campaign_manager.py:128-132 | one queued `email_sent` event per successful send: k events, every one `email_sent` for the campaign, and as a multiset exactly k copies of it and nothing else |
| CampaignManagement.CampaignManager.constructor | SocialPhantom/core/campaign_manager.py:14-23 | the manager starts over the existing campaign directories, none named "", `.` or `..`, with an empty event queue |
| CampaignManagement.CampaignManager.GetCampaign | SocialPhantom/core/campaign_manager.py:156-167 | a campaign is returned exactly when its directory exists and its `config.json` loads, and it is that file's contents |
| CampaignManagement.CampaignManager.ProcessEvent | SocialPhantom/core/campaign_manager.py:33-57 | the store afterwards is `ApplyEvent` of the store before: the named counter bumped, the rate recomputed, unknown campaigns ignored |
| CampaignManagement.CampaignManager.DrainEvents | SocialPhantom/core/campaign_manager.py:27-30 | the queue ends empty and the store is the fold of all queued events, front to back |
| CampaignManagement.CampaignManager.CreateCampaign | SocialPhantom/core/campaign_manager.py:59-105 | succeeds exactly when the directory does not exist yet; then stores `NewCampaign` under the name, otherwise changes nothing |
| CampaignManagement.CampaignManager.RunCampaign | SocialPhantom/core/campaign_manager.py:107-154 | fails without a loading campaign, or for type BEC when the mail configuration does not load, changing nothing; otherwise saves the campaign as running, started now, with `emails_sent` increased by the successful sends of a PHISHING or BEC run, and queues one `email_sent` event per success; the send results are admitted as given, which for PHISHING is the behaviour with `target['email']` passed as the recipient |
| CampaignManagement.CampaignManager.ListCampaigns | SocialPhantom/core/campaign_manager.py:169-177 | returns one campaign per directory whose `config.json` loads: the directories behind the entries are pairwise distinct, they are exactly the loading ones, and each entry is that directory's stored campaign |
| CampaignManagement.EventBumpsOwnCounter | SocialPhantom/core/campaign_manager.py:38-47 | each known event type raises its own counter by one and no other counter |
| CampaignManagement.UnknownEventOnlyRecomputesRate | SocialPhantom/core/campaign_manager.py:49-57 | an unknown event type changes no counter but the rate is still recomputed and saved |
| CampaignManagement.UnknownCampaignDropped | SocialPhantom/core/campaign_manager.py:35-36 | an event for a campaign that does not load is dropped without any change |
| CampaignManagement.RateAfterEvent | SocialPhantom/core/campaign_manager.py:49-55 | after any event the rate is 0 for a non-positive total, otherwise rate x total = successes (replies and transfers for BEC, sends and credentials otherwise), and lies in [0, 1] when the successes do not exceed the total |
| CampaignManagement.DrainCharacterization | SocialPhantom/core/campaign_manager.py:27-57 | after a drain, every campaign's record is a function of the multiset of events naming it |
| CampaignManagement.DrainCounts | SocialPhantom/core/campaign_manager.py:38-55 | after a drain, every counter of a loading campaign equals its old value plus the number of events of its type for that campaign; nothing else changes but the rate, which agrees with the counters |
| CampaignManagement.DrainSkipsUnloadable | SocialPhantom/core/campaign_manager.py:35-36 | a directory whose `config.json` does not load is never touched by a drain |
| CampaignManagement.DrainOrderIndependent | SocialPhantom/core/campaign_manager.py:27-30 | any two queues holding the same events drain to the same store |
| CampaignManagement.RunThenDrainCountsTwice | SocialPhantom/core/campaign_manager.py:124-143 | repaired (see Findings), reachable for BEC runs, and for PHISHING only once the recipient is repaired too: after `run_campaign` with k successful sends and a drain of the events it queued, `emails_sent` has grown by 2k |
| CampaignManagement.PhishingRunAsWritten | SocialPhantom/core/campaign_manager.py:124-131 | as written, a PHISHING run whose sends all fail (the target dictionary passed as the recipient) records no send, queues no event, and after the drain `emails_sent` is unchanged |
| CampaignManagement.BecCampaignEventsTest | SocialPhantom/tests/test_bec.py:55-85 | repaired (see Findings): a new BEC campaign draining `email_sent`, `bec_reply` and `bec_transfer` ends with 1, 1, 1 and rate 1 |
| CampaignManagement.BecRateAfterDrain | SocialPhantom/core/campaign_manager.py:52-55 | repaired (see Findings): a new BEC campaign whose drained events include two replies and one transfer for it, in any order, ends with rate 0.5 |
| CampaignManagement.MonitorAsWritten | SocialPhantom/core/campaign_manager.py:57 | as written, the monitor thread dies at the first event for a loading campaign, with every event after it still queued; it leaves the store unchanged, and lives on, with the queue empty, only if no event names a loading campaign |
| CampaignManagement.SaveCampaignMissing | SocialPhantom/core/campaign_manager.py:57 | in the scenario of the BEC test, the monitor as written dies with two events still queued and `emails_sent` 0, where the repaired drain gives 1 |
| EmailSending.RenderedHtml | SocialPhantom/modules/email_sender.py:74-87 | without a truthy campaign name the queued HTML is the substituted template; with one, the tracking image is in the HTML whenever the substituted template has a `</body>` |
| EmailSending.RetryOutcome | SocialPhantom/modules/email_sender.py:115-129 | one sleep between consecutive attempts, and a mail is given up only after all three attempts failed |
| EmailSending.SubjectChoices | SocialPhantom/modules/email_sender.py:131-148 | one default subject or three campaign subjects; three exactly when the name is truthy and lower-cases to `phishing` or `vishing`, and each of the three contains the name |
| EmailSending.Readable | SocialPhantom/modules/email_sender.py:93-98 | the attachments in order, one per file, each with the bytes read |
| EmailSending.Backoff | SocialPhantom/modules/email_sender.py:126-129 | one sleep per failed attempt that is not the last |
| EmailSending.EmailSender.constructor | SocialPhantom/modules/email_sender.py:18-26 | the sender holds the configuration (or none) and an empty queue |
| EmailSending.EmailSender.SendPhishingEmail | SocialPhantom/modules/email_sender.py:59-111 | repaired (see Findings): returns True exactly when the configuration is loaded with sender name and address and the template and every attachment can be read. Then it queues exactly one item, with the message to the recipient from the configured sender, a subject from `SubjectChoices`, the rendered HTML and the attachments in order. On False nothing is queued |
| EmailSending.EmailSender.SendEmail | SocialPhantom/modules/email_sender.py:113-129 | at most three attempts, stopping at the first success; delivered exactly when the last attempt got through; after three failures, sleeps of 1 s and 2 s, none after the last |
| EmailSending.EmailSender.ValidateEmailConfig | SocialPhantom/modules/email_sender.py:150-162 | True exactly when a configuration is loaded and the SMTP login gets through |
| EmailSending.PixelBeforeEveryBodyClose | SocialPhantom/modules/email_sender.py:84-87 | with a campaign name, the HTML is the substituted body with the tracking image put before every `</body>`; a body without `</body>` is unchanged |
| EmailSending.PlainTemplateUnchanged | SocialPhantom/modules/email_sender.py:69-87 | a template without `{{` and `</body>` is queued exactly as read |
| EmailSending.EmailSender.SendPhishingEmailAsWritten | SocialPhantom/modules/email_sender.py:59-111 | as written, the tracking line raises for a truthy campaign name, so True exactly when the repaired send would succeed and the name is not truthy; then it queues the substituted template without a tracking image, and on False nothing is queued |
| EmailSending.TrackedDemoMail | SocialPhantom/modules/email_sender.py:85-86 | a loaded configuration, a readable template and the name `demo` meet every condition of the repaired send, while `demo` is truthy, so as written the send returns False |
| EmailSending.FailTwiceThenSucceed | SocialPhantom/modules/email_sender.py:115-129 | a transport that fails twice and then succeeds is tried three times and delivers, after sleeps of 1 s and 2 s |
| EmailSending.AlwaysFailing | SocialPhantom/modules/email_sender.py:115-129 | a transport that always fails is tried three times, delivers nothing, and sleeps 1 s and 2 s |
| BecSimulation.ValidateTemplate | SocialPhantom/modules/bec_simulator.py:28-31 | a non-empty name validates only when the directory has an `*.html` entry with that stem, and, for names other than `.html`, always when it has one |
| BecSimulation.ListedNamesValidate | SocialPhantom/modules/bec_simulator.py:28-31 | every listed name but `.html` validates; `.html` listed from a marked file `.html` alone does not, since validation looks for `.html.html` |
| BecSimulation.Lookup | SocialPhantom/modules/bec_simulator.py:40-41 | a target field is found exactly when some item has that key, and the value found is the value of the first item with that key |
| BecSimulation.LookupDistinct | SocialPhantom/modules/bec_simulator.py:40-41 | in a target with distinct keys, as every dictionary has, `get` of an item's key returns that item's value |
| BecSimulation.FreshRecord | SocialPhantom/modules/bec_simulator.py:67-73 | a new tracking record holds the send time and is not opened, replied or forwarded, with no attachment opened |
| BecSimulation.TrackingTable.constructor | SocialPhantom/modules/bec_simulator.py:16 | the tracking dictionary starts empty |
| BecSimulation.BecSimulator.constructor | SocialPhantom/modules/bec_simulator.py:11-17 | the simulator holds the templates directory and a fresh, empty tracking dictionary |
| BecSimulation.BecSimulator.CreateMessage | SocialPhantom/modules/bec_simulator.py:33-51 | the error is `InvalidTemplate` exactly when `<template>.html` does not exist. With no `email` field it is `MissingEmail`; with an email but a template that is a directory or an unreadable file it is `UnreadableTemplate`. It succeeds exactly when the template is a readable file and the target has an email. The message is from the spoofed sender, to the email, with the target's subject or `Urgent: Wire Transfer Required`, and its one part is the template with every target field substituted |
| BecSimulation.BecSimulator.SendBecEmail | SocialPhantom/modules/bec_simulator.py:53-79 | a message is handed to the SMTP session exactly when it can be built and the connection and login succeed, and it is the built message with the hidden `/track/<email>` image as a second part; returns True exactly when, in addition, the server accepts it; only then is a fresh record written under the recipient's address, otherwise the tracking dictionary is unchanged |
| BecSimulation.BecSimulator.GetTrackingData | SocialPhantom/modules/bec_simulator.py:81-83 | the record of an address exactly when the dictionary has one |
| BecSimulation.BecSimulator.GetAvailableTemplates | SocialPhantom/modules/bec_simulator.py:103-106 | raises exactly when some `*.html` file cannot be read; otherwise every name appears exactly as often as there are readable `*.html` files holding `[SECURITY TEST]` with that stem (once for `x.html`, twice for `.html` when both `.html` and `.html.html` are marked), so every listed name comes from a marked file |
| BecSimulation.ListedStems | SocialPhantom/modules/bec_simulator.py:105-106 | the comprehension over the directory entries fails exactly when one of them is an unreadable `*.html` file |
| BecSimulation.ListedStemsCount | SocialPhantom/modules/bec_simulator.py:105-106 | over entries without repeats, the comprehension lists a name once for a marked `name.html` and once more for the marked file `.html` when the name is `.html` |
| BecSimulation.StemRoundTrip | SocialPhantom/modules/bec_simulator.py:105 | the stem of `x.html` with `.html` put back is `x.html` again; a name of only `.html` is its own stem |
| BecSimulation.StemIs | SocialPhantom/modules/bec_simulator.py:105 | the `*.html` names with stem `s` are `s.html` for a non-empty `s`, and also `.html` itself when `s` is `.html` |
| BecSimulation.SendBecEmailTest | SocialPhantom/tests/test_bec.py:25-53 | with the test's template in the simulator's own `templates/bec`, the test's target builds a message with the test's email and the default subject |
| BecSimulation.SendBecEmailTestAsWritten | SocialPhantom/tests/test_bec.py:26-29 | with `test_template.html` absent from the simulator's `templates/bec`, the template does not validate and no message can be built, so the send returns False |
| TrackingServer.LastIndexOf | SocialPhantom/modules/tracking_server.py:15 | the index of the last occurrence, or -1 when there is none |
| TrackingServer.StripParams | SocialPhantom/modules/tracking_server.py:15 | stripping `;params` leaves a prefix of the path; where the cut falls is stated by `StripParamsCut` and `StripParamsAt` |
| TrackingServer.StripParamsCut | SocialPhantom/modules/tracking_server.py:15 | the path keeps the last `/`, holds no `;` after it, and is either the whole text or stops just before a `;` |
| TrackingServer.UrlPath | SocialPhantom/modules/tracking_server.py:15 | the path is a prefix of the request target without `?` or `#` |
| TrackingServer.Identity | SocialPhantom/modules/tracking_server.py:17 | `path.split('/')[2]` of a tracking path is the text between `/track/` and the next `/`, and holds no `/` |
| TrackingServer.MarkOpened | SocialPhantom/modules/tracking_server.py:19-20 | a marked record is opened at `now` and keeps every other field |
| TrackingServer.HandleGet | SocialPhantom/modules/tracking_server.py:13-32 | repaired (see Findings): 404 exactly when the path does not start with `/track/`, and then nothing changes; otherwise 200 with the image whether or not the identity is known. Only the identity's record may change, and a known identity is marked opened at `now` |
| TrackingServer.HandleGetAsWritten | SocialPhantom/modules/tracking_server.py:21 | as written, the same records change, and the answer is 500 exactly when a known identity makes `log_message`'s format string fail |
| TrackingServer.TrackingRequestHandler.constructor | SocialPhantom/modules/tracking_server.py:9-11 | the handler holds the tracking dictionary it was given |
| TrackingServer.TrackingRequestHandler.DoGet | SocialPhantom/modules/tracking_server.py:13-32 | repaired (see Findings): updates the shared dictionary in place and answers exactly as `HandleGet` |
| TrackingServer.TrackSplit | SocialPhantom/modules/tracking_server.py:17 | a tracking path splits into `""`, `track` and the pieces of the rest |
| TrackingServer.IdentityIsThirdPiece | SocialPhantom/modules/tracking_server.py:17 | `/track/<id>/<more>` names `<id>`, and `/track/` names the empty identity |
| TrackingServer.QueryAndFragmentIgnored | SocialPhantom/modules/tracking_server.py:15 | a `?query` or `#fragment` after the path does not change the path that is served |
| TrackingServer.StripParamsAt | SocialPhantom/modules/tracking_server.py:15 | the path ends exactly at the first `;` after the last `/`, or at the end when there is none |
| TrackingServer.ParamsIgnored | SocialPhantom/modules/tracking_server.py:15 | `;params` after the last segment are dropped, so `/track/a;x` serves `/track/a` |
| TrackingServer.ServedAsIs | SocialPhantom/modules/tracking_server.py:15 | a target without `?`, `#`, or `;` after its last `/` is served exactly as sent |
| TrackingServer.RepeatHits | SocialPhantom/modules/tracking_server.py:18-20 | a second hit on the same target gives the same state as a single hit at the later time |
| TrackingServer.PixelRoundTrip | SocialPhantom/modules/tracking_server.py:16-20 | the link the BEC simulator embeds for an address without `/`, `?`, `#`, `;` names that address and marks its record opened |
| TrackingServer.SentThenOpened | SocialPhantom/modules/tracking_server.py:18-20 | a record written by a BEC send and then hit keeps its send time and counters and is opened at `now` |
| TrackingServer.FormatFails | SocialPhantom/modules/tracking_server.py:21 | `s % ()` raises only when `s` holds a `%`: a format string without `%` formats with no arguments |
| TrackingServer.LonePercentFails | SocialPhantom/modules/tracking_server.py:21 | a `%` followed by anything but `%`, after text with no `%`, makes the formatting raise |
| TrackingServer.LonePercentLogFails | SocialPhantom/modules/tracking_server.py:21 | the log line of an identity with a lone `%` cannot be formatted |
| TrackingServer.AsWrittenAgreesWithoutPercent | SocialPhantom/modules/tracking_server.py:21 | for identities without `%`, the handler as written and the repaired one agree on the status and on the tracking dictionary |
| TrackingServer.LonePercentIdentityAsWritten | SocialPhantom/modules/tracking_server.py:21 | as written, a known address with a lone `%` is marked opened but answered with 500; the repaired handler answers 200 |
| TrackingServer.SourcePixelMisframed | SocialPhantom/modules/tracking_server.py:27 | the bytes written start with the PNG signature, but the IDAT chunk declares 12 bytes where 11 follow, so the chunk layout does not reach a complete IEND |
| TrackingServer.TransparentPngWellFramed | SocialPhantom/modules/tracking_server.py:27 | the repaired image is a well-framed PNG: the signature, a 13-byte IHDR and chunks whose lengths fit, ending exactly with IEND |
| TrackingServer.TransparentPngHeader | SocialPhantom/modules/tracking_server.py:27 | the repaired image is 1x1, 8-bit, colour type 6 (RGBA) |

## Left out

- **Threads and processes are not modelled.** The monitor thread, the email worker pool, `__del__` and `start_tracking_server` run sequentially. The model drains the event queue with `DrainEvents`, and each queued email is sent with `SendEmail`. Lost updates from the concurrent read-modify-write of a `config.json` are not modelled.
- **Real time is not modelled.** The one-second poll of the monitor and the real sleeps of the backoff are left out. The backoff is the sequence of sleep lengths.
- **Other parts of the repository are not part of this model.** These are `modules/web_cloner.py`, `core/web_server.py` and the command-line entry point.
- **Template creation and server startup are not part of this model.** These are `BECSimulator.create_template` and `run_tracking_server`.
- **The event's `target` payload is not modelled.** No event type reads it.
- **Fields that no modelled operation reads are not modelled.** These are the `targets`, `settings` and `last_activity` entries of a campaign, and `config` keys beyond `name`, `type`, `created`, `status` and `stats`.
- **Non-integer values in stats are not modelled.** A supplied `stats` dictionary is modelled as whole counters; missing keys or non-numbers in it, and the `KeyError`s they would raise, are not.
- **Partial writes are not modelled.** If writing `config.json` or a sub-directory fails after `mkdir`, `create_campaign` returns False but leaves a directory behind. The model treats the create as atomic.
- **Names with path separators are not modelled.** A name containing `/` or `..` inside it, which would address another directory, is not modelled; only `""`, `.` and `..` as whole names are.
- **JSON round-trips are not modelled.** `datetime.isoformat` becomes a `Timestamp`; JSON files become their loaded value, and a missing or malformed file becomes `Unreadable`.
- **Letter case is modelled for ASCII only.** `str.lower` is modelled for ASCII letters; other Unicode case mappings are not.
- **`urlparse` is modelled for origin-form targets only.** Absolute URLs, `//authority` forms and the stripping of whitespace and control characters are not modelled. Neither is Python's collapsing of leading `//` in the request line.
- **Headers and error pages are not modelled.** The `Content-type` header and the HTML error pages of `send_error` are left out. A response is its status and body.
- **MIME encoding is not modelled.** Message objects keep their parts as fields; a non-string field value and its `str()` conversion are taken as already converted.
- **Mail configuration keys read only by the transport are not modelled.** These are the SMTP server, port and credentials; the transport's success is a parameter. A configuration file holding an empty object is modelled like one with no sender fields, which also yields False.
- **The BEC test setup is not modelled.** `tests/test_bec.py:18` calls `json.dump` without importing `json`, so as written `setUp` raises `NameError` before either test runs; `SendBecEmailTest` and `BecCampaignEventsTest` model the scenarios the tests set up after that point.
- CampaignManagement.RateAfterEvent: the rate is an exact `real`, while Python stores the float `successes / total`; so "rate x total = successes" holds in the source only up to float rounding (`1/49*49` is `0.9999999999999999`). The bounds `SuccessRate` states (0, 1 and the interval [0, 1]) hold for the float too.
- EmailSending.EmailSender.SendPhishingEmail: the subject is stated to be one of `SubjectChoices`, not a uniformly random one, because randomness is not modelled.
- TrackingServer.TransparentPngHeader: says nothing about the pixel's data or the chunk CRCs, because zlib and CRC-32 are not modelled; the pixel's transparency is not proved.

## Findings

| source | as written | input that shows it | evidently intended | confidence | as-written member | corrected member |
|---|---|---|---|---|---|---|
| SocialPhantom/core/campaign_manager.py:57 | `_process_event` ends with `self._save_campaign(campaign)`, which the class never defines; the monitor thread dies with `AttributeError` at the first event for an existing campaign, and the bumped stats are never written | the BEC test scenario: create `test_bec_campaign`, queue `email_sent`, `bec_reply`, `bec_transfer` | write the updated campaign back to its `config.json`, so the stats reflect every event | not executed; high | CampaignManagement.SaveCampaignMissing | CampaignManagement.DrainCounts |
| SocialPhantom/core/campaign_manager.py:126 | `run_campaign` passes the whole target dictionary as `recipient`; `send_phishing_email` calls `recipient.encode()` on the tracking line, which a dictionary lacks, so even with `hashlib` imported every PHISHING send raises `AttributeError` and returns False, and no send is ever recorded | `run_campaign("demo", [{"email": "test@example.com"}], template)` on a PHISHING campaign `demo`, with `hashlib` imported and a loaded mail configuration | pass `target['email']` as the recipient, so a prepared mail counts as sent and queues its `email_sent` event | not executed; high | CampaignManagement.PhishingRunAsWritten | CampaignManagement.CampaignManager.RunCampaign |
| SocialPhantom/modules/email_sender.py:86 | the tracking line calls `hashlib.md5` but `hashlib` is never imported (lines 1-15); every send with a truthy campaign name raises `NameError` and returns False | `send_phishing_email(template, "test@example.com", "demo")` with a readable template and a loaded configuration | import `hashlib`, so the pixel carrying the MD5 of the recipient is added and the message queued; this alone does not repair `run_campaign`, which passes a dictionary as the recipient (campaign_manager.py:126 row) | not executed; high | EmailSending.EmailSender.SendPhishingEmailAsWritten | EmailSending.EmailSender.SendPhishingEmail |
| SocialPhantom/modules/tracking_server.py:21 | the identity is put into the format string of `log_message`, which formats it with no arguments; an identity with a lone `%` raises after the record was updated, and the handler answers 500 | a GET on `/track/a%b` while `a%b` is in the tracking dictionary | pass the identity as an argument (`"Email opened by %s", email`), so every known identity gets the pixel | not executed; high | TrackingServer.LonePercentIdentityAsWritten | TrackingServer.HandleGet |
| SocialPhantom/modules/tracking_server.py:27 | the "transparent 1x1 pixel" bytes are not a PNG: IDAT declares 12 data bytes but 11 follow, so its CRC and the IEND chunk are misaligned; its IHDR also says colour type 2 (RGB, no alpha) | any GET on a `/track/` path | a well-formed 1x1 RGBA image with a fully transparent pixel | not executed; medium | TrackingServer.SourcePixelMisframed | TrackingServer.TransparentPngWellFramed |
| SocialPhantom/tests/test_bec.py:26 | the test writes `test_template.html` under `tests/bec_test/templates/bec`, but `BECSimulator` always reads `templates/bec` (bec_simulator.py:14), so `_create_message` raises `ValueError` and `send_bec_email` returns False where the test asserts True | `test_send_bec_email` run from a checkout whose `templates/bec` holds no `test_template.html` | write the template into the directory the simulator reads, so the message is built and sent | not executed; high | BecSimulation.SendBecEmailTestAsWritten | BecSimulation.SendBecEmailTest |
