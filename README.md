# Building management domain model in Dafny

This project models the domain-model layer of a building-management web
application (`app/models/`). It covers the following areas:

- **Finance**: expense categories split an expense over the active units of a building. An expense writes one allocation row per unit, once. Invoices recompute their status from what was paid and what is due. Late fees raise the amount due. Confirmed payments are applied to their invoice.
- **System**: announcements are shown to users by a date window and audience filters. Access tokens are checked for validity and zones. Subscriptions gate features and usage by plan.
- **Buildings**: a building keeps its list of entrances and its bank accounts. Addresses and unit numbers are formatted as text. A unit names a primary contact and computes its share percentage.
- **Users**: a membership's JSON policy is read along dotted permission keys and merged with updates recursively. Role checks answer whether a user holds a role or may access a building.
- **Audit**: a field-level diff is taken between old and new values.

Modelling choices:

- Database rows become Dafny values or classes. A field the source updates in place is a `var` of a class, and its method states the new state.
- Dates and instants are integers.
- Today and now are parameters.
- Decimal amounts are exact `real`s. The code calls no rounding function, but Python's default Decimal context keeps 28 significant digits, so a quotient such as `shares / total_shares` is rounded there. The model computes exactly; that context rounding is not modelled (see "## Left out"), so sums such as `Finance.PlanTotal` are exact in the model where the program can be off in the 28th digit. The other conversions are the `float(...)` copies written into JSON records, such as the formula snapshot and the late-fee entry; see "## Left out".
- JSON columns are a `Json` datatype. Python's truthiness, `==`, `in` and `<` on decoded JSON are written out.

Where the code is looser than its column constraints and docstrings suggest, the model follows the code:

- No amount is rounded to cents.
- `update_status` replaces a CANCELLED status (`Finance.CancelledIsOverwritten`).
- A payment can be applied twice, because nothing records that it was applied (`Finance.ApplyTwice`).
- `add_late_fee` does not recompute the status (`Finance.Invoice.AddLateFee` leaves it as it was).

Files:

- `common.dfy`: Option/Result, JSON values, Python equality, split/join, integer formatting, and sums over dicts.
- `finance.dfy`: allocation, expenses, invoices, payments.
- `system.dfy`: announcements, access tokens, subscriptions.
- `building.dfy`: buildings and units.
- `user.dfy`: users, memberships, policies.
- `audit.dfy`: the audit diff.

## Model

| member | source | states |
|---|---|---|
| Finance.CalculateAllocations | app/models/finance.py:81-124 | the dict built by the per-method loops equals the allocation plan: the active units of the building, each charged by the category's method when that method's guard holds, and nothing otherwise |
| Finance.AllocationKeys | app/models/finance.py:85-122 | the plan's keys are exactly the ids of the active units of the building when the method's guard holds (share total > 0, at least one unit, occupant total > 0, always for METERED/CUSTOM), and empty otherwise |
| Finance.IneligibleUnitsAbsent | app/models/finance.py:85 | an inactive unit, or a unit of another building, is never a key of the plan |
| Finance.SharesAllocation | app/models/finance.py:88-96 | SHARES: an active unit is charged exactly when the share total is positive, and then gets shares / total shares * amount; a unit without shares gets 0 |
| Finance.PerUnitAllocation | app/models/finance.py:98-103 | PER_UNIT: every active unit gets amount / number of active units |
| Finance.PerPersonAllocation | app/models/finance.py:105-111 | PER_PERSON: with a positive occupant total, every active unit gets amount / total occupants * its occupancy (0 when unset); otherwise nothing |
| Finance.PlaceholderAllocation | app/models/finance.py:113-122 | METERED and CUSTOM map every active unit to 0 |
| Finance.PlanTotal | app/models/finance.py:81-124 | the entries of the plan add up to the expense amount for SHARES, PER_UNIT and PER_PERSON whenever anything is charged, and to 0 otherwise |
| Finance.SharesSum | app/models/finance.py:90-96 | the SHARES amounts of any prefix of the units add up to that prefix's shares / total shares * amount |
| Finance.PerUnitSum | app/models/finance.py:100-103 | the PER_UNIT amounts of k units add up to k times the per-unit amount |
| Finance.PerPersonSum | app/models/finance.py:107-111 | the PER_PERSON amounts of a prefix add up to the per-person amount times that prefix's occupants |
| Finance.TableSum | app/models/finance.py:81-124 | the sum over the dict equals the sum of the unit amounts in unit order, whatever the dict's iteration order |
| Finance.EligibleDistinct | app/models/finance.py:85 | selecting the active units of a building keeps unit ids distinct |
| Finance.Expense.SaveRows | app/models/finance.py:168-181 | the loop writes one row per key of the plan with that unit's amount, the expense id and the formula snapshot; earlier rows are kept; the allocated total grows by the plan's sum |
| Finance.Expense.GenerateAllocations | app/models/finance.py:163-185 | on an allocated expense returns false and changes nothing (so a second call is a no-op); otherwise writes exactly one row per planned unit, sets `is_allocated` and returns true |
| Finance.SaveDone | app/models/finance.py:168-181 | when no key is left, the new rows cover exactly the plan's keys, once each, and their total is the plan's sum |
| Finance.NextStatus | app/models/finance.py:272-283 | PAID iff paid >= due; PARTIAL iff not paid and paid > 0; OVERDUE iff unpaid, nothing paid, due date before today and prior status neither PAID nor CANCELLED; UNPAID otherwise; never CANCELLED |
| Finance.CancelledIsOverwritten | app/models/finance.py:272-283 | a CANCELLED invoice is not protected: recomputing replaces CANCELLED, with UNPAID when nothing is paid |
| Finance.PriorStatusIrrelevant | app/models/finance.py:266-281 | any prior status other than PAID and CANCELLED leads to the same new status |
| Finance.Invoice.BalanceDue | app/models/finance.py:261-264 | balance + paid == due; the balance is positive exactly when less than due was paid, and may be negative |
| Finance.Invoice.IsOverdue | app/models/finance.py:266-270 | overdue iff past the due date and the status is neither PAID nor CANCELLED (both directions) |
| Finance.Invoice.UpdateStatus | app/models/finance.py:272-283 | the new status is `NextStatus` of paid, due, due date, today and the prior status; PAID exactly when the balance is not positive |
| Finance.Invoice.AddLateFee | app/models/finance.py:285-301 | amount due grows by the fee, the balance by the same, amount paid is untouched, and exactly one late-fee entry is appended |
| Finance.Payment.ApplyToInvoice | app/models/finance.py:342-348 | applies only a confirmed payment with an invoice: amount paid grows by exactly the payment amount, status is recomputed, nothing else changes; otherwise returns false and changes nothing |
| Finance.ApplyTwice | app/models/finance.py:342-348 | there is no replay guard: applying the same payment twice adds twice its amount |
| System.Announcement.IsVisibleToUser | app/models/system.py:87-136 | visible iff current (published, today within the date window) and either the audience is empty or the user has an active membership in the building and every non-empty filter (entrances, floors, roles, units) matches one of those memberships |
| System.Announcement.AudienceMatches | app/models/system.py:105-136 | the list-and-`any` evaluation of the audience agrees with the per-filter existence statement |
| System.AnyInFiltered | app/models/system.py:106-133 | filtering to the user's active memberships in the building neither loses nor adds a matching membership |
| System.CurrentBetween | app/models/system.py:143-151 | the visibility window has no holes: current on two days implies current on every day between |
| System.Announcement.IsCurrent | app/models/system.py:143-151 | current iff published, not before `visible_from` and not after `visible_until`, a missing bound leaving that side open |
| System.Announcement.IncrementViews | app/models/system.py:138-141 | `views_count` grows by exactly 1 |
| System.Announcement.constructor | app/models/system.py:77-85 | an empty audience becomes the default one with four empty filters |
| System.DefaultAudience | app/models/system.py:79-85 | the default audience holds the four filters, all empty |
| System.AnyIn | app/models/system.py:113-133 | `any(value in filter ...)` holds iff some membership's value is in the filter |
| System.DefaultPermissions | app/models/system.py:205-210 | the default permissions have no time windows and no guest access |
| System.AccessToken.IsValid | app/models/system.py:212-226 | valid iff enabled and valid_from <= now <= valid_until, a missing bound leaving that side open |
| System.AccessToken.CanAccessZone | app/models/system.py:228-241 | true iff the token is valid and the zone is listed; the `at_time` argument and the time windows play no part |
| System.AccessToken.RecordUsage | app/models/system.py:243-257 | `usage_count` grows by exactly 1, `last_used_at` is the usage time, and one log with that zone, result and time is appended |
| System.AccessToken.constructor | app/models/system.py:200-210 | empty zones default to the main entrance; empty permissions to the default permissions |
| System.DefaultFeaturesUsed | app/models/system.py:324-329 | a new subscription's feature counters start at 0 |
| System.DefaultUsageStats | app/models/system.py:331-335 | a new subscription's usage counters start at 0 |
| System.Subscription.IsActive | app/models/system.py:337-347 | active iff status is ACTIVE and there is no end date or today is not after it |
| System.FeatureLimits | app/models/system.py:349-386 | the plan table; every plan has a feature list |
| System.Subscription.Limits | app/models/system.py:386 | a subscription without a plan gets the FREE limits |
| System.Subscription.CanUseFeature | app/models/system.py:388-396 | false when inactive; otherwise true iff the plan lists 'all_features' or the feature |
| System.PlanFeatures | app/models/system.py:349-396 | an active FREE subscription allows exactly basic_management and announcements, STANDARD also finance and voting, PRO and ENTERPRISE every feature |
| System.InFeatureList | app/models/system.py:396 | a feature is found in the stored list exactly when its name is listed |
| System.Subscription.CheckUsageLimit | app/models/system.py:398-412 | false when inactive; true for a -1 limit; otherwise current < limit, where current is the given value, or the stored usage counter (0 when absent) when no value or an explicit `None` is given; comparing with a missing or non-numeric limit is a TypeError |
| System.EnterpriseUnlimited | app/models/system.py:376-407 | an active ENTERPRISE subscription is never limited in users, units or announcements |
| System.ExplicitNoneReadsUsage | app/models/system.py:409-410 | passing `None` as the current value is the same as leaving it out |
| System.PyLess | app/models/system.py:412 | Python `<` succeeds exactly on two numbers (booleans count as 0 and 1) and then compares their values |
| System.Subscription.UpdateUsage | app/models/system.py:414-421 | adds the increment to the named counter (absent counts 0), leaves every other counter unchanged; a non-numeric counter is a TypeError that changes nothing |
| Buildings.FullAddress | app/models/building.py:84-98 | the address parts joined with ", "; empty exactly when no part is present; starts with the street and ends with the city when those are present |
| Buildings.AddressParts | app/models/building.py:88-96 | one part per present (truthy) key, none empty; the street first, then `str(number)` right behind the street (or first without one), the city last |
| Buildings.Building.AddEntrance | app/models/building.py:142-148 | appends the name only when absent, otherwise the list is unchanged; the name is listed afterwards; a list without duplicates stays so |
| Buildings.Building.RemoveEntrance | app/models/building.py:150-158 | succeeds iff the name is listed and no unit is in that entrance; it then removes the name and keeps the rest; otherwise the list is unchanged |
| Buildings.Without | app/models/building.py:154 | keeps exactly the entrances different from the name, each as often as it was listed (the multiset with the name removed) |
| Buildings.WithoutKeepsOrder | app/models/building.py:154 | the remaining entrances keep their order (they embed in the old list in order) |
| Buildings.Building.UnitsInEntrance | app/models/building.py:104-106 | exactly the building's units in that entrance |
| Buildings.Building.AddBankAccount | app/models/building.py:160-172 | appends exactly one account, primary iff the list was empty; "only the first account is primary" is preserved |
| Buildings.Building.FloorsCount | app/models/building.py:183-190 | the number of distinct floors among the units that have a floor |
| Buildings.Building.TotalShares | app/models/building.py:112-114 | with non-negative shares, the total is non-negative and at least the shares of every unit, active or not |
| Buildings.Building.constructor | app/models/building.py:34-82 | a new building has no units (its unit list is trivially linked back) and keeps the entrances and bank accounts it is given |
| Buildings.Floors | app/models/building.py:186-189 | a floor is counted iff some unit is on it |
| Buildings.Unit.FullNumber | app/models/building.py:257-266 | the parts joined with ", "; always ends with "Ап. {number}"; starts with "Вх. {entrance}" when there is an entrance, else with "Ет. {floor}" when a floor is set; is just the apartment part without entrance and floor |
| Buildings.Unit.NumberParts | app/models/building.py:260-265 | "Вх. {entrance}" first when the entrance is present, then "Ет. {floor}" whenever a floor is set (floor 0 included), and "Ап. {number}" last; one part per item |
| Buildings.Unit.ActiveMemberships | app/models/building.py:268-270 | exactly the active memberships of the unit |
| Buildings.Unit.Owners | app/models/building.py:272-276 | the users of exactly the active owner memberships |
| Buildings.Unit.Tenants | app/models/building.py:278-282 | the users of exactly the active tenant memberships |
| Buildings.Unit.AllOccupants | app/models/building.py:284-286 | one user per active membership |
| Buildings.Unit.PrimaryUsers | app/models/building.py:290 | the users of exactly the active primary memberships |
| Buildings.FirstUser | app/models/building.py:288-305 | the reference search: `None` iff no membership matches; otherwise the user of a matching membership with no match before it |
| Buildings.FirstOfActive | app/models/building.py:290-301 | the first user of a comprehension over the active memberships is the first match of "active and the condition" in the whole list |
| Buildings.FirstOfWhere | app/models/building.py:304-305 | the first element of a filtered list is the first match in the list |
| Buildings.WhereWhere | app/models/building.py:275-290 | filtering the active memberships by a role or flag is filtering once by both conditions |
| Buildings.Unit.PrimaryContact | app/models/building.py:288-305 | the user of the first active primary membership, else of the first active owner, else of the first active tenant, else of the first active membership, else nobody (each "first" as defined by `FirstUser`); someone is returned iff the unit has an active membership |
| Buildings.Unit.SharePercentage | app/models/building.py:307-315 | shares / building total * 100 when the unit has shares, a building, and the total is positive; 0 otherwise |
| Buildings.SharePercentageBounded | app/models/building.py:307-315 | with non-negative shares, a unit listed in its building holds between 0 and 100 percent |
| Buildings.PercentagesTotal | app/models/building.py:307-315 | when every listed unit points back to the building, the percentages of all its units, active or not, add up to 100 whenever the total is positive |
| Buildings.Unit.UpdateOccupancyCount | app/models/building.py:317-320 | the occupancy count becomes the number of active memberships |
| Users.User.FullName | app/models/user.py:97-101 | "first last" when both names are present, else the email, else the phone, else "User {id}"; never empty |
| Users.User.MembershipsForBuilding | app/models/user.py:116-119 | exactly the active memberships in that building |
| Users.User.HasRoleInBuilding | app/models/user.py:121-124 | true iff some active membership in that building has the role |
| Users.User.CanAccessBuilding | app/models/user.py:134-138 | true iff the user is a superuser, SUPERADMIN or STAFF, or has an active membership in the building |
| Users.RoleGivesAccess | app/models/user.py:121-138 | a role in a building gives access to it |
| Users.User.HasRole | app/models/user.py:140-152 | 'superadmin' and 'admin' ask for the global status; manager, owner, tenant and occupant ask for an active membership with that role; every other name is false |
| Users.LocalRoleNamed | app/models/user.py:146-148 | exactly the four local role names are recognised, each as its own role |
| Users.User.RecordLogin | app/models/user.py:168-173 | `login_count` grows by exactly 1 and `last_login` is the login time |
| Users.Membership.constructor | app/models/user.py:210-232 | a missing start date becomes today and an empty policy becomes the role's default policy |
| Users.DefaultActions | app/models/user.py:224-228 | vote iff OWNER; manage_building iff MANAGER; view_finance iff OWNER, MANAGER or CASHIER |
| Users.DefaultVisibility | app/models/user.py:218-231 | building_docs iff OWNER or MANAGER; expenses_summary iff OWNER, MANAGER or CASHIER; own_invoices and announcements always; announcements_per_day is 5 for MANAGER and 1 otherwise |
| Users.Membership.HasPermission | app/models/user.py:239-250 | the loop's answer is the truthiness of the value reached along the dotted key, false once a key is missing or a value on the way is not a dict |
| Users.WalkStuck | app/models/user.py:244-248 | once the walk gets stuck it stays stuck, whatever follows |
| Users.PermittedPair | app/models/user.py:241 | a key "a.b" of dot-free names walks the path [a, b] |
| Users.PathDeterminesKey | app/models/user.py:241 | two permission keys that split into the same path are the same key |
| Users.GrantedPair | app/models/user.py:243-250 | a two-key path is granted iff entry b of the dict at a exists and is truthy |
| Users.Merge | app/models/user.py:252-264 | the merged policy has the keys of both sides; keys the update does not mention are unchanged; the update's value wins wherever the two sides do not both hold dicts |
| Users.Membership.UpdatePolicy | app/models/user.py:252-264 | the new policy is the merge of the old policy and the updates |
| Users.DeepUpdate | app/models/user.py:257-262 | the in-place update loop (recursing into nested dicts) produces the merge |
| Users.MergeIdempotent | app/models/user.py:252-264 | applying the same update twice gives the same policy as applying it once |
| Users.MergeSelf | app/models/user.py:257-262 | merging a dict into itself changes nothing |
| Users.MergeReaches | app/models/user.py:252-264 | after an update, every path leading to a non-dict value in the update leads to that value in the policy |
| Audit.ComputeDiff | app/models/__init__.py:63-68 | empty when either side is empty; otherwise a key is in the diff iff it is in the new values and its old value (null when missing) differs; each entry records old and new; keys only in the old values never appear |
| Audit.CreateAuditLog | app/models/__init__.py:59-78 | the log records action, actor, class name as entity and the object's id, and the diff, whose keys are new-value keys |
| Audit.UnchangedNoDiff | app/models/__init__.py:63-68 | saving values identical to the old ones records no change |
| Audit.DiffReplays | app/models/__init__.py:63-68 | writing the diff's new values over the old values agrees with the new values on every key they hold |
| Common.JoinSplit | app/models/user.py:241 | joining the pieces of a split with the separator gives the key back, and no piece contains the separator |
| Common.SplitJoin | app/models/user.py:241 | splitting the join of separator-free pieces gives the pieces back |
| Common.MapSumRemove | app/models/finance.py:170 | the sum over a dict does not depend on the order its entries are visited |
| Common.NatToStringValue | app/models/building.py:264 | the decimal rendering of a floor number reads back as that number |
| Common.PyEqReflexive | app/models/__init__.py:67 | every JSON value equals itself under Python's `==` |

## Left out

- Persistence is not modelled. This covers `db.session.commit`, `save`, queries and `to_dict`. The allocation rows of an expense are a sequence field of the expense.
- `Expense.get_total_allocated` is a SUM query over the saved rows. It is modelled as the sum of the expense's rows (`Expense.TotalAllocated`); the query itself is not.
- Expense allocation is given the building's units as plain rows. The query that loads the active units of the building is not modelled.
- The clock is not modelled. Today and now are parameters, and timestamps are integers with no ISO formatting.
- Password hashing is not modelled, because it is a foreign library call.
- The `get_buildings`, `get_managers`, `get_owners` (Building) and `active_memberships_count` queries are not modelled.
- Meter readings are not modelled. METERED and CUSTOM are zero placeholders in the code, and they are zero here.
- Access-token time windows are not modelled. The code does not check them.
- Decimal context precision and `Numeric(12,2)` column rounding are not modelled. The program rounds each quotient to 28 significant digits (shares 1 of 3 on 100.00 gives 33.33333333333333333333333333, and three such rows add up to 99.99999999999999999999999999). Amounts here are exact reals, so `Finance.PlanTotal` and the per-method sum lemmas hold exactly in the model only.
- Default settings for buildings and units are not modelled. The invoice number format is not modelled either. No modelled operation reads them.
- Aliasing is not modelled. `deep_update` mutates nested dicts in place, so a caller holding a nested dict of the policy would see the change. JSON values here are values.
- Dict iteration order is not modelled. Diff and allocation dicts are maps, and the order rows are written in is left open.
- System.In: some of Python's `in` tests raise TypeError, namely on a number, boolean or null container, and for a non-string searched in a string. These cases are modelled as "no match" rather than as an error.
- Subscription.CheckUsageLimit: when the stored counter and the limit are both lists, Python would compare them element by element. The model reports a TypeError instead. This only arises for 'features'.
- Buildings.Address: the address JSON is modelled as its three optional keys. A street or city that is not a string is not modelled. Python's join would raise TypeError on one.
- Finance.Expense.GenerateAllocations: the formula snapshot stores `float(amount_total)` and a fresh `utcnow()` for each row. The model stores the exact amount, and gives every row of one call the same instant.
- Finance.Invoice.AddLateFee: the late-fee entry stores `float(fee_amount)`. The model stores the exact amount.
- System.AccessToken.IsValid: `valid_from` and `valid_until` are timezone-aware columns, while `now` is a naive `utcnow()`. If the database returns aware datetimes, Python's comparison raises TypeError instead of answering. Instants here are plain integers, so that error is not modelled.
- Buildings.Where: `[m for m in ... if ...]` keeps the order of the list. The model states that order through `FirstUser` (the first match) and `WithoutKeepsOrder` (entrances). For the owner, tenant and occupant lists themselves it states membership only, not their full order.
- AccessLog rows are the token's `accessLogs` sequence. Their ids and the other log columns are not modelled.
