# Le-Big-Match fixture generator: the checkable rules of the v2 pass

`make_csv.py` writes seed data for a social-events database, one CSV file per
table. Most of it samples random values. The second (v2) pass, lines 351-543,
also contains a few rules that can be stated exactly. This project models those
rules in Dafny and proves them:

- **has_active_sub**: whether a user holds an active subscription at an instant.
  A user may hold several subscriptions, and they may overlap. The user is active
  when the date falls inside the union of all that user's windows.
- **Likes**: a "nope" row may carry a `canceled_at` timestamp only when its
  source user is active at that instant. The database enforces the same rule
  with a trigger.
- **Subscriptions**: half of the users are sampled without repetition. Each
  sampled user gets one subscription, which is written as a row and also kept
  for the check above.
- **Social accounts**: each user gets one to seven distinct providers. The
  accounts are numbered 1, 2, 3, … through the counter `acc`.
- **gen_external_uid**: the shape of a synthetic account id, which depends on
  the provider.

How things are represented:

- A date is its day number, the ordinal of Python's `date.toordinal()`.
- A timestamp is a day plus the second within that day. `ts.date()` is the day.
- Every random choice is a parameter. `random.sample` is given as the distinct
  positions it picks, so the fact that the chosen users are distinct is proved,
  not assumed. `slugify` is a function parameter.
- The text of a date or timestamp cell is an injective rendering with a parser
  that inverts it. A written `canceled_at` can therefore be read back and
  checked against the subscriptions using the row alone.

Modules, in dependency order: `Wrappers`, `Decimal`, `Calendar`, `Pools`,
`ActiveSub`, `Subscriptions`, `ExternalUid`, `SocialAccounts`, `Likes` and
`Fixtures`. `Fixtures` runs the four modelled tables in the script's order.

## Model

| member | source | states |
|---|---|---|
| Decimal.NatToString | make_csv.py:395 | `str` of a non-negative int is one or more digits with no leading zero; a leading '0' only for 0 |
| Decimal.ParseRendering | make_csv.py:398 | parsing the decimal text of n gives back n |
| Decimal.RenderingInjective | make_csv.py:395 | two numbers with the same decimal text are equal |
| Decimal.IntToString | make_csv.py:395 | `str` of an int starts with '-' iff it is negative; for a non-negative int it is all digits and parses back to the int |
| Decimal.RenderingLength | make_csv.py:395 | a number in [10^(k-1), 10^k) renders with exactly k digits |
| Calendar.Iso | make_csv.py:389 | the text of a timestamp is never empty, so a stamped cancellation is never "" |
| Calendar.ParseIsoRoundTrip | make_csv.py:485 | parsing the text `iso` wrote gives back the same instant |
| Calendar.ParseIso | make_csv.py:485 | `strptime` of the text `iso` wrote; its meaning is given by `Calendar.ParseIsoRoundTrip` |
| Calendar.IsoInjective | make_csv.py:389 | distinct instants are written differently |
| Pools.Pool | make_csv.py:403 | the pool has n ids, the i-th being i+1; an id is in the pool iff 1 <= id <= n; no id repeats |
| Pools.SampleDistinct | make_csv.py:469 | sampling distinct positions of a repeat-free pool yields distinct pool members |
| ActiveSub.WindowsOf | make_csv.py:458 | the filtered (start, end) pairs come only from stored tuples of that uid, and every stored tuple of that uid contributes its pair |
| ActiveSub.AnyCovers | make_csv.py:459-461 | the scan returns true iff some pair has start <= date and (no end or date <= end) |
| ActiveSub.HasActiveSub | make_csv.py:457-461 | the answer is true iff some stored tuple of that user has start <= ts.date() and (no end or ts.date() <= end) |
| ActiveSub.ActivityIsUnion | make_csv.py:458-461 | activity over two lists of tuples is the disjunction of activity over each, i.e. the union of windows |
| ActiveSub.OrderIrrelevant | make_csv.py:458-461 | any reordering of the stored tuples (same multiset) gives the same answer |
| ActiveSub.OtherUserIgnored | make_csv.py:458 | inserting another user's tuple anywhere never changes the answer |
| ActiveSub.NoTuplesNeverActive | make_csv.py:458-461 | a user with no stored tuple is never active |
| ActiveSub.OpenEndedActiveForever | make_csv.py:459 | an open-ended tuple makes its user active on every date from its start on |
| ActiveSub.ClosedWindowActive | make_csv.py:459 | a tuple with an end makes its user active on every date of the window, both ends included |
| ActiveSub.OpenEndedScenario | make_csv.py:457-461 | a subscription from 2023-01-01 with no end is active on 2030-01-01 |
| ActiveSub.ClosedWindowScenario | make_csv.py:457-461 | a subscription from 2023-01-01 to 2023-06-01 is active on 2023-03-01 and not on 2023-07-01 |
| Subscriptions.Drawn | make_csv.py:453 | the kept tuple of a draw: end absent when the 30% branch fires; used in the ensures of `Subscriptions.GenerateSubscriptions` |
| Subscriptions.WriteRow | make_csv.py:454 | the written row `[uid, start, end or ""]`; its meaning is given by `Subscriptions.RowRoundTrip` |
| Subscriptions.RowRoundTrip | make_csv.py:454 | reading a written row gives back exactly the kept tuple; the end cell is "" iff the end is absent |
| Subscriptions.GenerateSubscriptions | make_csv.py:449-454 | one tuple per sampled user (|users|/2 of them), for distinct users of the pool; each row is exactly the written text of its tuple and reads back as it; every end is on or after its start |
| ExternalUid.GenExternalUid | make_csv.py:394-400 | the provider dispatch; each branch's shape is given by `FacebookUid`, `ShortSlugUid`, `LinkedinUid`, `TicketmasterUid`, `SnapchatUid` and `OtherProviderUid` |
| ExternalUid.FacebookUid | make_csv.py:395 | with n in [10^11, 10^12-1], the facebook uid has 12 digits, no leading zero, and reads back as n |
| ExternalUid.TicketmasterUid | make_csv.py:398 | with n in [10^9, 10^10-1], the ticketmaster uid has 10 digits, no leading zero, and reads back as n |
| ExternalUid.LinkedinUid | make_csv.py:397 | the linkedin uid is "urn:li:person:" followed by the first 22 hex characters of the uuid |
| ExternalUid.SnapchatUid | make_csv.py:399 | the snapchat uid built from eight picks is eight lower-case ASCII letters |
| ExternalUid.ShortSlugUid | make_csv.py:396 | for instagram, X and tiktok, the uid is the slug of the first 15 characters of the user name, and nothing after them matters |
| ExternalUid.OtherProviderUid | make_csv.py:400 | any other provider name, including lower-case "x", gets the slug of the whole user name |
| SocialAccounts.Account | make_csv.py:470 | the row `[uid, prov, gen_external_uid(prov)]`; the providers a block of such rows gives each user are stated by `SocialAccounts.ProvidersOfUserAccounts` |
| SocialAccounts.AllAccounts | make_csv.py:468-470 | the accounts in user order; each belongs to a listed user and names a provider from PROVIDERS |
| SocialAccounts.ProvidersOfBlock | make_csv.py:469-470 | a run of accounts all of user u gives u exactly its providers in order, and gives no other user anything |
| SocialAccounts.ProvidersOfUserAccounts | make_csv.py:469-470 | a user's block gives that user exactly the sampled providers, and gives nothing to any other user |
| SocialAccounts.ProvidersOfUser | make_csv.py:468-470 | with distinct users, the accounts of the i-th user carry exactly the providers sampled for that user |
| SocialAccounts.NoAccountsOfOthers | make_csv.py:468-470 | an id outside the user list receives no account |
| SocialAccounts.ProvidersPerUser | make_csv.py:469 | each user receives between 1 and len(PROVIDERS) accounts, with distinct providers, all from PROVIDERS |
| SocialAccounts.GenerateSocialAccounts | make_csv.py:464-470 | the accounts are the per-user blocks in user order; after the loop acc = number of accounts + 1 and sa_ids = [1..acc-1] |
| Likes.CancellationAllowed | make_csv.py:483-486 | the trigger's rule: a non-empty canceled_at only on a "nope" whose text parses to an instant at which the source is active; established by `Likes.WrittenRowFacts` |
| Likes.WrittenFrom | make_csv.py:482-487 | a row built from its draw as the loop body builds it; its consequences are given by `Likes.WrittenRowFacts` |
| Likes.WrittenRowFacts | make_csv.py:482-487 | in a written like row, source and target are distinct pool members; canceled_at is non-empty iff the value is "nope", the draw fired and the source is active at the candidate instant; it then equals iso of that instant and parses back to an instant at which the source is active |
| Likes.GenerateLikes | make_csv.py:479-487 | writes 400 rows, each built from its draw; every row has distinct source and target from the pool and obeys the cancellation rule |
| Likes.EmptyCancellation | make_csv.py:483-486 | an empty canceled_at means the value was "like", the draw did not fire, or the source had no covering subscription at the candidate date |
| Fixtures.Generate | make_csv.py:449-487 | run in the script's order: subscriptions for N_USERS//2 distinct users with end >= start; sa_ids = 1..number of accounts; every user gets 1..7 distinct providers; every like row obeys the cancellation rule against the subscriptions generated earlier |

## Left out

- The v1 pass (make_csv.py lines 1-350) is superseded, because v2 overwrites the same files. In particular v1's lower-case "x" provider is not modelled, although `ExternalUid.OtherProviderUid` shows where "x" lands under v2.
- The users, places, tags, categories, tag-category, events, digital-trace, participation, tag-assignment and notification tables are not modelled. They are independent random sampling and template text, and they carry no rule beyond "the id is drawn from its pool"; not even that part is modelled. `Pools.Pool` serves two modelled lists: the user pool `users` and the account ids `sa_ids`. `Pools.SampleDistinct` serves the provider sample of each user (make_csv.py:469). The distinct uids of the subscription sample are proved directly in `Subscriptions.GenerateSubscriptions`.
- CSV writing, the `CSV/` directory, Faker, `slugify`, `uuid` and `random` are foreign or I/O. Their results come in as parameters: the draw datatypes, and `slugify` as a function parameter.
- Calendar text formats: `strftime("%Y-%m-%d %H:%M:%S")` and `str(date)` are modelled as an injective decimal rendering with a parser. Real calendar formatting is not modelled.
- The bounds of `fake.date_between("-2y", "-1d")` and `fake.date_between(start, "+6M")` are not modelled. `"+6M"` counts from the day of the run, not from the start date. The only bound the model assumes, as a precondition on the draws, is that an end date is never before its start.
- The randint ranges for the facebook and ticketmaster numbers, uuid hex being 32 lower-case hex characters, and `random.choices` returning k = 8 letters are library promises. They appear as hypotheses of the `ExternalUid` lemmas.
- No ordering between a like's `created_at` and `canceled_at` is modelled. The two instants are drawn independently, and the script promises no order.
- Float fields (`weight_kg`, `price`) are floating point with no logic attached.
- In has_active_sub, the test `e == ""` never holds for a stored tuple, whose end is `None` or a date. The model keeps the absent end only as `None`.
