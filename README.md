# Cost dashboard core, modelled in Dafny

This project models the logic under a Dash cost dashboard. The dashboard reads a table of cost
records. Each record carries five hierarchy levels (`Level1` .. `Level5`) and a `Cost`. The model covers:

- the four level filters that `update_graphs` applies in turn;
- the key figures computed over the filtered rows: total cost, number of regions (distinct `Level2`), number of divisions (distinct `Level4`) and mean cost;
- the Sankey aggregation in `create_sankey`. Four passes each group the rows by an adjacent pair of levels and sum the cost. Every label gets an index the first time it is seen, and one link per group is appended to four parallel lists;
- the cascading dropdown options of `update_filter_options`;
- the small callbacks: page routing, login, logout, profile save and the toggle of the AI panel.

Modules, one per concern:

- `Wrappers`: `Option` and `Result`.
- `Hierarchy`: the record type, level access, total cost, distinct values, order-preserving subsequences.
- `StringOrder`: Python's string order, sorting with duplicates removed.
- `Filters`: the filter guard, `isin` and the filtering method `FilterRows`, specified by the single-pass reference `Select`.
- `Kpis`: the key figures.
- `Grouping`: pandas `groupby([a, b])['Cost'].sum()`, modelled as insertion into a list kept sorted by key.
- `Sankey`: the imperative node and link builder (`CreateSankey`, `AddTier`, `AddGroup`, `Register`, `AppendLink`), specified by `Describes` against the label visits and links of the four tiers.
- `FilterOptions`: the cascading option lists.
- `Session`: routing, login, logout, panel toggle.
- `Profile`: the profile merge and the user store, a class whose `users` map `SaveProfile` updates in place.
- `Dashboard`: the `update_graphs` callback, and a worked two-row example.

Behaviour of the code that the model keeps:

- An empty selection is falsy, so it means no restriction.
- The mean of zero rows is NaN in pandas. It is modelled as `None`.
- Nodes and links come out in pandas' default sorted group order.
- A label that occurs at two levels is a single node. Labels are not namespaced by level.
- A dropdown value that is a non-empty plain string not containing `'ALL'` as a substring passes the guard (so `''` and `'ALLOC'` skip the filter). pandas `isin` then rejects it, because it is not list-like. The model returns `Err(NotListLike(level, text))` for that case instead of a filtered table.

## Model

| member | source | states |
|---|---|---|
| Hierarchy.SubsequenceTrans | app.py:992-1002 | narrowing twice in a row still yields an order-preserving subsequence of the original rows |
| Hierarchy.SubsequenceMembers | app.py:992-1002 | every row of a filtered table is a row of the table it came from |
| Hierarchy.SubsequenceCostsLess | app.py:992-1005 | with non-negative costs, filtering can only lower the total cost |
| Hierarchy.NonNegativeTotal | app.py:1005 | the sum of non-negative costs is non-negative |
| Hierarchy.SubsequenceDistinct | app.py:1006-1007 | a filtered table has a subset of the distinct values of a level, so no more of them |
| Hierarchy.DistinctBounds | app.py:1006-1007 | a level has at most one distinct value per row, and at least one exactly when the table is non-empty |
| StringOrder.LessIrreflexive | app.py:947 | Python's string order is irreflexive |
| StringOrder.LessTransitive | app.py:947 | Python's string order is transitive |
| StringOrder.LessTotal | app.py:947 | any two different strings are ordered one way or the other |
| StringOrder.PairLessTransitive | app.py:1063 | the lexicographic order on (left, right) group keys is transitive |
| StringOrder.PairLessTotal | app.py:1063 | any two different group keys are ordered |
| StringOrder.InsertLabel | app.py:947 | inserting into a strictly increasing list keeps it strictly increasing and adds exactly the new value |
| StringOrder.SortedUnique | app.py:947 | `sorted(unique(...))`: strictly increasing, and holds exactly the values of the column |
| Filters.Narrow | app.py:993-994 | `df[df[level].isin(values)]` keeps, in order, exactly the rows whose level value is among the values |
| Filters.NarrowCounts | app.py:993-994 | a selected row keeps all its copies and an unselected one loses all of them |
| Filters.Select | app.py:992-1002 | the rows that pass all four filters, in their original order, and no others |
| Filters.FilterRows | app.py:992-1002 | the step-by-step filtering fails exactly when an active selection is a plain string (non-empty, without `'ALL'` as a substring), with the error of the first such level; otherwise it returns `Select` |
| Filters.SelectNone | app.py:992-1002 | when no filter is active, the table is returned unchanged |
| Filters.SelectStep | app.py:992-1002 | an inactive level leaves the rows unchanged; an active list narrows the rows filtered so far to the listed values |
| Filters.SelectCounts | app.py:992-1002 | each row occurs in the result as often as in the table if it passes the filters, else not at all |
| Filters.StricterSelectsLess | app.py:992-1002 | a stricter filter selects a subsequence of what a looser one selects |
| Filters.AllValuesAreInactive | app.py:992 | None, the empty selection and `'ALL'` each disable the filter and admit every value |
| Kpis.ComputeKpis | app.py:1005-1008 | the mean is defined exactly for a non-empty table, and mean times row count is the total; both counts are bounded by the row count and positive exactly when rows exist |
| Kpis.TotalIsSumOfRows | app.py:1005 | the total cost of two tables put together is the sum of their totals |
| Kpis.NarrowerKpis | app.py:992-1008 | narrowing the table never raises either count and, with non-negative costs, never raises the total |
| Grouping.LookupAbsent | app.py:1063 | a key without a group sums to 0 |
| Grouping.AddCost | app.py:1063 | adding one record's cost keeps the group list sorted, adds its key, grows the grand total by the cost and changes only that key's sum |
| Grouping.GroupBy | app.py:1063 | the groups are sorted by key, have exactly the keys of the records, the per-key sum of the records' costs, and the same grand total |
| Grouping.LookupSorted | app.py:1063 | in a sorted group list the lookup of a group's key gives that group's total |
| Grouping.GroupTotals | app.py:1063 | each group's total is the summed cost of the records with its key |
| Grouping.TierFacts | app.py:1063-1098 | each tier's groups are sorted, one per pair of adjacent labels that occurs in some row, and their totals add up to the table's total |
| Grouping.ProjectCost | app.py:1063 | projecting rows onto a level pair keeps the total cost |
| Grouping.SortedKeysDistinct | app.py:1063 | no two groups share a key |
| Grouping.SortedKeyCount | app.py:1063 | there are exactly as many groups as distinct keys |
| Sankey.DedupFacts | app.py:1064-1069 | the first-seen label list has no duplicates and holds exactly the visited labels |
| Sankey.TierVisitsMembers | app.py:1063-1080 | a pass visits exactly the target labels of its groups, and the source labels too in the first pass |
| Sankey.Register | app.py:1064-1069 | looking up a label adds it at the end of `all_nodes`, with its index in `node_dict`, only if it was not there, and keeps every existing entry |
| Sankey.AppendLink | app.py:1071-1074 | one entry is appended to each of the four link lists: source and target indices of the group's labels, its summed cost, and the tier colour |
| Sankey.AddGroup | app.py:1063-1074 | one loop iteration: registers the labels, then appends the group's link |
| Sankey.AddTier | app.py:1063-1107 | one pass over a tier's groups extends the nodes by its visits and the links by its links, keeping the index invariant; source lookups in tiers 2 to 4 need the source to be known already |
| Sankey.CreateSankey | app.py:1048-1107 | `all_nodes` is the first-seen order of all visits, without duplicates, and holds exactly the labels of the table; `node_dict[l]` is the position of `l`; the four lists are parallel, one entry per link, with valid indices |
| Sankey.Registered | app.py:1082-1105 | a source label that was visited before is in `node_dict` |
| Sankey.SourcesSeen | app.py:1076-1105 | every source of tiers 2 to 4 was a target (or, in tier 2, a label) of the previous tier, so the source lookups never miss |
| Sankey.VisitsAreLabels | app.py:1063-1105 | the labels visited by the four passes are exactly the labels in the table |
| Sankey.GroupOfTier | app.py:1063 | every group comes from some row |
| Sankey.TierOfRow | app.py:1063 | every row falls into some group |
| Sankey.VisitedIsLabel | app.py:1063-1105 | a visited label is a label of the table |
| Sankey.LabelIsVisited | app.py:1063-1105 | every label of the table is visited |
| Sankey.TierConservation | app.py:1063-1107 | in each tier the link values sum to the total cost of the table |
| Sankey.LinkSums | app.py:1073 | the link values of a tier are its group totals |
| Sankey.TierLinksArePairs | app.py:1063-1107 | each tier has one link per distinct adjacent-level pair, no two links share a pair, and each link carries its pair's summed cost |
| Sankey.EmptyTable | app.py:1048-1107 | an empty table gives no nodes and no links |
| FilterOptions.OptionsFor | app.py:946-964 | an option list starts with "Alle"/`'ALL'`, then its captions equal its values, the values are strictly increasing, and they are exactly the distinct values of the level |
| FilterOptions.UpdateFilterOptions | app.py:940-964 | each lower level's list is `OptionsFor` of the rows narrowed by the higher selections; the callback fails exactly when such a selection is a non-empty plain string without `'ALL'` as a substring |
| FilterOptions.OfferedLevel3OptionSelectsRows | app.py:942-947 | choosing any offered level-3 value alone selects at least one row |
| Session.DisplayPage | app.py:830-855 | the login page appears exactly when the session is missing or unauthenticated; otherwise the page carries the session's user, and `/profile` and `/ml-analysis` map to their pages; every other path, None included, maps to the dashboard |
| Session.Login | app.py:874-887 | the session becomes authenticated and the URL goes to `/dashboard` exactly when a click comes with a non-empty username and password of a known user whose stored hash equals the password's hash; otherwise the session is unchanged, with the matching error text |
| Session.LoginLeadsToDashboard | app.py:830-887 | after a successful login the redirect to `/dashboard` shows the logged-in user's dashboard, and every path shows a page of that user |
| Session.FailedLoginKeepsAccess | app.py:830-887 | a failed login changes no page that any path shows |
| Session.Logout | app.py:897-900 | a click signs out and goes to `/`; no click changes nothing |
| Session.LogoutLocksEveryPage | app.py:897-900 | after a logout every path shows the login page |
| Session.ToggleAiModal | app.py:1839-1842 | the panel changes state exactly when either button has been clicked |
| Session.ToggleTwice | app.py:1839-1842 | two toggles with clicks restore the panel |
| Profile.Merge | app.py:922-925 | a non-empty entered value replaces the stored one; an empty or missing one keeps it |
| Profile.UpdatedUser | app.py:921-925 | name, email, department and role are merged; password and creation time stay |
| Profile.EmptyFormKeepsUser | app.py:921-925 | saving an empty form leaves the user as it was |
| Profile.SaveIsIdempotent | app.py:921-925 | saving the same form twice has the effect of saving it once |
| Profile.UserStore.SaveProfile | app.py:912-929 | no click gives a blank message; a missing session raises; an empty username gives "not authenticated"; a known user is updated with `UpdatedUser` and the other users are kept; an unknown user gives the failure message; the store changes only on success |
| Dashboard.UpdateGraphs | app.py:988-1048 | the figures are computed on the filtered rows: the key figures are `ComputeKpis` of `Select`, the Sankey data `Describes` its visits and links, and the nodes are its labels; the callback fails exactly when an active selection is a plain string (non-empty, without `'ALL'` as a substring), with the error of the first such level |
| Dashboard.FlowMatchesTotal | app.py:1005-1107 | each Sankey tier's flow equals the total cost shown beside it |
| Dashboard.TwoLeafKpis | app.py:1005-1008 | two rows A>B>C>D>E at 100 and A>B>C>D>F at 50 give a total of 150, one region, one division and a mean of 75 |
| Dashboard.SamePairGroups | app.py:1063 | two records with the same key make one group with the summed cost |
| Dashboard.TwoLeafSharedTier | app.py:1063-1087 | in the example, tiers 1 to 3 each have one link of 150 |
| Dashboard.TwoLeafSplitTier | app.py:1098 | in the example, tier 4 splits into D>E at 100 and D>F at 50, in sorted order |
| Dashboard.TwoLeafTiers | app.py:1063-1098 | the example's four tiers, in full |
| Dashboard.TwoLeafLinks | app.py:1063-1107 | the example's five links, in pass order, with their colours |
| Dashboard.TwoLeafNodes | app.py:1063-1105 | the example's six nodes A to F, in first-seen order |
| Dashboard.DedupDistinct | app.py:1064-1069 | a label list without duplicates is its own first-seen order |

## Left out

- Page layout, navbar, login/profile/dashboard page builders, style dicts and the HTML template: UI declarations with no behaviour. The model returns which page is shown, not its content.
- The plotly figures, including the Sankey figure's rendering, and the other ten chart functions: rendering through an external library. Only the Sankey data feeding the figure is modelled.
- The cost predictors, training, prediction and their callbacks: numeric library code.
- Reading the CSV file and the users file, and writing the users file: file I/O. The table is a parameter. The users file is the `users` map of `UserStore`, and a save replaces the map in memory.
- `hash_password` (SHA-256): a foreign call. It is a function parameter `hash`, so login is proved for every hash function.
- `check_callbacks.py`: a text-matching script over another file, not part of the dashboard's behaviour.
- Cost is a `real`. Floating-point rounding of the sums and the mean is not modelled.
- NaN values in the table: pandas `groupby` drops groups with a NaN key by default. Every label here is a string, so that case does not arise in the model.
- The formatting of the key figures as text (thousands separators, currency sign): presentation only.
- Session.DisplayPage: the `'user'` default of `session_data.get('username', 'user')` is not modelled. The session record always carries a `username` field, possibly `None`. The `False` default of `session_data.get('authenticated', False)` is not modelled either: `authenticated` is a required field, and every writer of the session store sets both keys. The `except` branch that renders an error page is also not modelled, because the page builders it guards are not modelled.
- Sankey.CreateSankey: the source repeats the same loop four times. The model runs one method, `AddTier`, four times, with a flag for the first tier, which also registers the source label.
- Filters.FilterRows: a list selection holding values that are not strings is not modelled. Selections are strings or lists of strings.
- Profile.UserStore.SaveProfile: a session without a `username` key and a session whose value is `None` both read as missing.
