# Bite Me Buddy Admin: a verified model of the panel's decision logic

The Bite Me Buddy admin panel is a Flask application over a PostgreSQL database. It has three
variants of the application (`app.py`, the self-contained `oapp.py` and the earlier `9app.py`),
a data-access layer (`models.py`), helpers (`utils.py`) and configuration (`config.py`). There is
no engine. The model covers the logic that can be stated without Flask or the database:

- the rewrite of a `postgres://` DATABASE_URL and the IST conversion helpers (module `Config`);
- the map link, the currency fallback, the reporting windows selected by a period keyword, and
  the reshaping of statistics rows into chart arrays (`Utils`);
- the order status update with its audit log, which is modelled as a class over the orders
  statuses and the `order_logs` rows (`Models`);
- the order-details lookup and the statistics windows (`Models`);
- the filtered, paginated listing queries as condition and parameter lists (`Queries`);
- the session gate, login and logout as a state machine over the session map (`Auth`);
- the route-level arithmetic, badge tables and validation of each application variant (`App`,
  `Oapp`, `Nine`).

Supporting modules:

- `Text` models Python's `strip()`, `lower()` and `title()`.
- `Calendar` models Python datetimes as integer calendar fields. A date is year, month and day,
  plus the microsecond of the day. `Ordinal` numbers days as `toordinal()` does, and `Instant`
  turns a wall clock into one integer.
- `Wrappers` provides `Option` and `Result`.

The database never runs here. Whatever a SELECT returns is a parameter of the model: the rows
themselves, or a function from the built query to its answer, where `None` stands for a raised
exception. The clock (`ist_now()`, `datetime.now()`) is the parameter `now`. strftime, float
formatting and `str()` of a value are parameters too.

Two details of the code that the model keeps as written:

- `prepare_chart_data` neither caps the timeline nor catches exceptions (utils.py:68-134): a NULL item name or status makes it raise.
- The chart label of a status is its `title()` (utils.py:121), so `unknown_status` is shown as `Unknown_Status`.

## Model

| member | source | states |
|---|---|---|
| Text.IsSpace | app.py:78-79 | the characters Python's str.isspace() accepts, which strip() removes: the ASCII whitespace and separators \t-\r, \x1c-\x1f and space, and the Unicode spaces U+0085, U+00A0, U+1680, U+2000-U+200A, U+2028, U+2029, U+202F, U+205F and U+3000 |
| Text.TrimLeft | app.py:78-79 | the result is the suffix of s after its leading whitespace; it does not start with whitespace |
| Text.TrimRight | app.py:78-79 | the result is the prefix of s before its trailing whitespace; it does not end with whitespace |
| Text.Strip | app.py:78-79 | strip(): the leading whitespace removed, then the trailing; its properties are StripEnds, StripShape, StripEmptyIff and StripIdempotent |
| Text.StripEnds | app.py:78-79 | the result of strip() neither starts nor ends with whitespace |
| Text.StripIdempotent | app.py:78-79 | stripping a stripped string changes nothing |
| Text.StripEmptyIff | app.py:81-83 | strip() gives "" exactly when every character is whitespace |
| Text.StripShape | app.py:78-79 | the stripped text is the contiguous slice of the input that starts right after its leading whitespace |
| Text.LowerChar | app.py:840 | lower-casing yields no upper-case letter and keeps letters letters |
| Text.UpperChar | utils.py:121 | upper-casing yields no lower-case letter and keeps letters letters |
| Text.Lower | app.py:840 | same length; each character is lower-cased in place |
| Text.LowerIdempotent | utils.py:127 | lower() applied twice equals lower() applied once |
| Text.TitleFrom | utils.py:121 | title-casing keeps the length; each letter is upper-cased when the character before it (or the given context, at the start) is not a letter and lower-cased when it is; other characters are kept |
| Text.Title | utils.py:121 | item['status'].title(): same length, the first letter of each run of letters upper-cased, the other letters lower-cased, the rest kept |
| Text.LowerOfTitleFrom | utils.py:121-127 | lower-casing a title-cased string gives the lower-cased original |
| Text.LowerOfTitle | utils.py:127 | label.lower() of a title-cased status equals status.lower() |
| Calendar.IsLeap | utils.py:49-59 | the Gregorian rule Python's datetime uses: divisible by 4, and not by 100 unless also by 400 |
| Calendar.DaysInMonth | utils.py:49-59 | every month has 28 to 31 days; it has 29 exactly for February of a leap year |
| Calendar.DaysBeforeYear | utils.py:52 | the number of days before 1 January of year y counted from year 1 is non-negative, and at least 365 after year 1 |
| Calendar.Ordinal | utils.py:63 | date.toordinal(): days before the year, plus days before the month, plus the day; its range is stated by OrdinalBounds |
| Calendar.DaysBeforeNextYear | utils.py:52 | the closed-form count of days before a year grows by exactly that year's length (365, or 366 in a leap year) |
| Calendar.PrevDay | utils.py:49 | the previous day exists iff the date is not datetime.min's; it is valid and its ordinal is one less |
| Calendar.NextDay | config.py:46 | the next day exists iff the date is not datetime.max's; it is valid and its ordinal is one more |
| Calendar.OrdinalBounds | utils.py:63 | every date's ordinal lies between 1 and 3652059; it is 1 exactly for 0001-01-01 and 3652059 exactly for 9999-12-31 |
| Calendar.ExtremeOrdinals | utils.py:63 | datetime.min's date has ordinal 1 and datetime.max's date has ordinal 3652059 |
| Calendar.DaysBeforeYearMonotone | utils.py:52 | later years have at least as many days before them |
| Calendar.InstantOrderIsFieldOrder | utils.py:41-66 | comparing instants is the field-by-field order Python's datetime comparison uses |
| Calendar.DateOrder | utils.py:41-66 | an earlier date by fields has a smaller ordinal |
| Calendar.InstantCompare | utils.py:41-66 | instants order by day first, then by the time of day |
| Calendar.ValidIsRepresentable | utils.py:63 | every valid datetime lies between datetime.min and datetime.max |
| Calendar.MinusDays | utils.py:52 | t - timedelta(days=n) exists iff the ordinal exceeds n; the time is kept and the ordinal drops by n |
| Calendar.InstantOfNeighbourDay | utils.py:52 | moving the date by k days at the same time moves the instant by k days |
| Calendar.BeyondRange | config.py:46 | carrying past datetime.max or before datetime.min leaves the representable range |
| Calendar.ShiftMicros | config.py:46-49 | shifting by delta microseconds succeeds iff the target instant is representable, and it lands on that instant |
| Config.ReplaceFirst | config.py:17 | replacing the first occurrence of a prefix is the prefix swap; a string without the pattern is unchanged |
| Config.NormalizeDatabaseUrl | config.py:15-17 | a URL starting with postgres:// becomes postgresql:// plus the untouched rest; every other value, including None and "", is kept |
| Config.NormalizeIdempotent | config.py:16-17 | rewriting twice equals rewriting once |
| Config.AdminCredentials | config.py:26-27 | the configured username and password, 'admin' and 'admin123' when unset |
| Config.AsAware | config.py:48-49 | a naive datetime is read as UTC; an aware one is kept |
| Config.ToIst | config.py:38-51 | None maps to None; when both the UTC wall clock astimezone computes first and the IST wall clock lie in the datetime range, the result denotes the same UTC instant at +05:30; otherwise the OverflowError is caught and the input comes back unchanged |
| Config.EarlyAwareStaysPut | config.py:46 | an aware datetime on 0001-01-01 whose offset exceeds its time of day comes back unchanged, even where its IST wall clock would exist (02:00+05:00) |
| Config.NaiveIsUtc | config.py:48-49 | a naive datetime converts exactly like the same wall clock marked UTC |
| Config.FormatIstDatetime | config.py:53-61 | None renders as ""; anything else is rendered after the IST conversion |
| Utils.GenerateMapLink | utils.py:8-12 | a link exists iff both coordinates are truthy (a 0 coordinate gives None); it is the maps prefix followed by lat,lon |
| Utils.SplitJoined | utils.py:11 | splitting a comma-joined pair at its first comma gives the pair back when the first part has no comma |
| Utils.MapLinkRecoversCoordinates | utils.py:11 | the query of a link splits back into the two coordinate texts |
| Utils.FormatCurrency | utils.py:14-19 | a non-number (None or unconvertible) gives the text for zero rupees; a number is the rupee sign plus its rendering |
| Utils.CurrencyHasRupeePrefix | utils.py:17-19 | every formatted amount starts with the rupee sign, followed by the rendering |
| Utils.TodayWindow | utils.py:45-47 | starts at midnight of now's date and ends at now; start <= end |
| Utils.WeekWindow | utils.py:51-53 | exists iff now is more than 7 days past 0001-01-01; it starts exactly 7 days before now, ends at now, start <= end |
| Utils.MonthWindow | utils.py:54-56 | starts at midnight on day 1 of now's month and ends at now; start <= end |
| Utils.AllTimeWindow | utils.py:62-64 | starts at datetime.min and ends at now; start <= end |
| Utils.YesterdayWindow | utils.py:48-50 | exists iff now is not on 0001-01-01; it covers 00:00:00.000000 to 23:59:59.999999 of the previous day and ends before now |
| Utils.LastMonthWindow | utils.py:57-61 | exists iff now is not in January of year 1; it runs from the 1st at 00:00 to the month's last day at 23:59:59.999999 of the previous month; that last day is the day before the 1st of now's month |
| Utils.TimePeriodDates | utils.py:41-66 | for every keyword, start <= end <= now; end == now except for yesterday and last_month; an unknown keyword is all time; it fails only where Python would overflow |
| Utils.RevenueValue | utils.py:84 | a NULL revenue counts as 0 |
| Utils.TimelineLabel | utils.py:78-81 | a datetime period is labelled with the strftime rendering of its IST conversion; any other period by its str() text |
| Utils.ItemLabel | utils.py:98 | a name of at most 20 characters is kept; a longer one is its first 20 characters plus "..."; labels never exceed 23 characters |
| Utils.StatusColor | utils.py:127 | a status in the colour table gets its colour, and any other status gets #6c757d |
| Utils.PrepareChartData | utils.py:68-134 | raises (None) exactly when some top-items row has a NULL item_name or some status row a NULL status; otherwise each chart's parallel arrays have one entry per input row, in input order, with no cap; labels are formatted, truncated or title-cased; NULL revenues become 0; each colour is the table entry of the lower-cased status |
| Utils.StatusColorIgnoresCase | utils.py:121-127 | the colour looked up through the title-cased label equals the colour of the status in any case; an unknown status gets the fallback |
| Utils.RefundedFallsBack | utils.py:111-127 | 'refunded' gets the fallback colour |
| Queries.TotalPlaceholdersAppend | models.py:226 | placeholders of joined condition lists add up |
| Queries.LikePattern | models.py:222 | f"%{search}%" |
| Queries.LikePatternRecoversSearch | models.py:222 | the pattern is the search text between two % signs, two characters longer, and dropping them gives the search back |
| Queries.BuildOrdersQuery | models.py:187-234 | offset = (page-1)*per_page; the status only if truthy, four %search% copies only if search is truthy, then [per_page, offset]; count params = params[:-2]; WHERE iff a filter is given |
| Queries.BuildCustomersQuery | models.py:469-516 | the same shape with three search copies and no status |
| Queries.OrdersPlaceholdersBound | models.py:208-250 | the count query binds exactly one parameter per placeholder of its conditions, and the page query two more |
| Queries.CustomersPlaceholdersBound | models.py:485-516 | the same binding fact for the customers listing |
| Queries.CountParamsAreFilters | models.py:245-250 | the count parameters are all filter strings, and there are none without a WHERE |
| Queries.OrEmpty | models.py:255-257 | a query that raised gives no rows and a total of 0 |
| Models.ConnectionUrl | models.py:25-33 | an unset or empty URL is an error with the ValueError text; otherwise it is the rewritten URL |
| Models.SecondRewriteIsNoOp | models.py:31-33 | rewriting config.py's already-rewritten URL again changes nothing |
| Models.UpdateTransition | models.py:430-462 | succeeds iff there is no fault and the order exists; a failure changes nothing and returns the fault text or 'Order not found'; a success sets only that order's status and appends exactly one log row (order, admin, 'status_update', notes, old status, new status) |
| Models.UpdateKeepsLogConsistent | models.py:445-458 | every update keeps the latest log row of each order equal to its current status, and keeps consecutive rows chained (old status = previous new status) |
| Models.OrderTable.UpdateOrderStatus | models.py:430-462 | the new table and the answer are those of UpdateTransition; the log invariant is preserved |
| Models.ItemDisplayName | models.py:288-292 | the service name for type service, the menu name for menu, 'Unknown Item' otherwise |
| Models.DisplayNameMissingOnlyForBrokenJoin | models.py:288-303 | the name is NULL only when the typed join found nothing |
| Models.NameItems | models.py:284-304 | one named item per order_items row, in order |
| Models.HasUser | models.py:308 | the truthiness of order['user_id']: NULL and 0 are false |
| Models.GetOrderDetails | models.py:259-339 | None iff a query raised or the order row is missing; items keep their rows and get their display names; the customer is looked up only when user_id is truthy |
| Models.StatisticsWindow | models.py:347-363 | only today (grouped by hour) and month (by day) yield a window, which ends at now; week and all time raise NameError |
| Models.OrderStatistics | models.py:341-428 | a report exactly when the window exists and the queries answer; {} otherwise |
| Models.WeekAndAllTimeStatisticsAreEmpty | models.py:352-363 | week and all-time statistics are {} whatever the database holds |
| Models.IntendedAllTimeStart | models.py:361 | intended: datetime.min marked as UTC and read in IST, the wall clock 0001-01-01 05:30, 330 minutes after datetime.min |
| Models.IntendedStatisticsWindow | models.py:341-363 | intended: week is now-7 days to now (by day); all time runs from IntendedAllTimeStart to now (by month) and is ordered iff now is not before it; today, week and month windows are ordered |
| Models.IntendedOrderStatistics | models.py:341-428 | intended: a report exactly when the intended window exists and the queries answer |
| Models.IntendedStatisticsReport | models.py:341-428 | intended: every keyword reports when the database answers, and today/month agree with the code |
| Models.GetAllOrders | models.py:182-257 | the query has BuildOrdersQuery's shape; the answer or ([], 0) when it raised |
| Models.GetCustomers | models.py:464-525 | the query has BuildCustomersQuery's shape; the answer or ([], 0) when it raised |
| Auth.FormField | app.py:78-79 | request.form.get(name, '').strip(): a missing field reads as "", a present one is stripped |
| Auth.FormFieldBlankIff | app.py:78-83 | a form field reads as "" exactly when it is missing or all whitespace |
| Auth.DecideLogin | app.py:76-98 | a field blank after strip() is rejected first; acceptance iff both stripped fields equal the credentials |
| Auth.BlankMeansWhitespaceOnly | app.py:78-83 | a login is rejected as blank exactly when a field is missing or all whitespace |
| Auth.LoginEffect | app.py:89-92 | an accepted login sets admin_logged_in, admin_username and login_time and keeps every other entry; a rejected one changes nothing |
| Auth.Gate | app.py:46-53 | the handler runs iff admin_logged_in is in the session; otherwise the request redirects and the handler is not called |
| Auth.AdminIndex | app.py:64-69 | /admin goes to the dashboard iff logged in |
| Auth.LoginOpensGate | app.py:89-92 | after an accepted login gated routes run; a rejected login changes no gate decision |
| Auth.LogoutClosesGate | app.py:102-107 | after logout every gated route and /admin redirect to login |
| Auth.Session.Login | app.py:75-100 | the decision is DecideLogin's and the new session is LoginEffect's |
| Auth.Session.Logout | app.py:102-107 | the session becomes empty |
| Auth.Session.AdminUsername | app.py:454 | session.get('admin_username'): the stored username, or None |
| App.TotalPages | app.py:238 | always >= 1; 1 for total <= 0; ceil(total/20) for total > 0: (pages-1)*20 < total <= pages*20 |
| App.BadgeKey | app.py:840 | None and "" give ""; any other status gives its lower-cased form |
| App.Lookup | app.py:840 | dict.get(key, 'secondary') |
| App.StatusBadge | app.py:829-840 | the class of the lower-cased status from the 7-entry table; None, "" or unknown give secondary |
| App.PaymentBadge | app.py:842-851 | the class from the 5-entry payment table; None, "" or unknown give secondary |
| App.BadgesIgnoreCase | app.py:840 | a status and its lower-cased form get the same badges |
| App.UpdateStatusDecision | app.py:437-465 | without the modules, 'Database modules not loaded'; a blank stripped status gives 'Status is required'; in both cases the orders are untouched; otherwise update_order_status runs with the stripped values and the session admin, and its answer passes through; success iff modules loaded, status non-blank, no fault and the order exists |
| App.UpdateStatusKeepsLogConsistent | app.py:448-461 | every request keeps the audit log consistent with the orders |
| App.UpdateStatusRoute | app.py:437-465 | the new table and the answer are UpdateStatusDecision's, with the session's admin_username; the log invariant is preserved |
| App.AdminOrders | app.py:212-248 | the listing uses the requested page and filters; the template always gets page 1 and empty current filters |
| App.AdminCustomers | app.py:471-512 | the customers listing likewise always shows page 1 and an empty search |
| App.AdminOrderDetails | app.py:263-320 | as written: 'Order not found' for a missing order, and "'payment'" (the KeyError) for every existing one |
| App.OrderDetailsNeverSucceed | app.py:314 | the details endpoint never answers success |
| App.IntendedAdminOrderDetails | app.py:263-320 | intended: success iff the order exists, with the details and the payment row |
| Nine.TotalPages | 9app.py:159 | unguarded ceil(total/20): 0 pages for 0 orders, ceil bounds for total > 0 |
| Nine.PageCountsAgreeExceptWhenEmpty | 9app.py:159 | agrees with app.py's count for total > 0; gives 0 against app.py's 1 for total 0 |
| Nine.StatusBadge | 9app.py:615-626 | None raises (unguarded lower()); a string gets its badge- class or badge-secondary |
| Nine.PaymentBadge | 9app.py:628-637 | the same for the 5 payment statuses |
| Nine.BadgesArePrefixedAppBadges | 9app.py:615-637 | for every string, the class is 'badge-' followed by app.py's class |
| Nine.UpdateStatusRoute | 9app.py:348-373 | the new table and the answer are app.py's decision with the modules loaded: a blank stripped status is refused untouched, and any other status goes to update_order_status |
| Nine.AdminOrders | 9app.py:146-169 | the template gets the requested page and filters and the unguarded page count |
| Nine.AdminCustomers | 9app.py:381-410 | the requested page and search are echoed, with the unguarded page count |
| Oapp.DbConnection | oapp.py:22-44 | None, not an exception, when the URL is missing or connecting fails; otherwise the rewritten URL |
| Oapp.ConnectionAgreesWithModels | oapp.py:28-36 | answers None exactly where models.py raises, and otherwise uses the same URL |
| Oapp.FormatCurrency | oapp.py:66-73 | None and unconvertible amounts give the text for zero rupees |
| Oapp.CurrencyAgreesWithUtils | oapp.py:66-73 | formats every amount as utils.py does |
| Oapp.FormatIstDatetime | oapp.py:53-64 | a falsy argument gives ""; an unparsable string comes back unchanged; strftime failures fall back to str() |
| Oapp.GetAllOrders | oapp.py:112-184 | without a connection, ([], 0) and no query; otherwise the Queries shape, and the answer or ([], 0) |
| Oapp.GetCustomers | oapp.py:251-312 | the same for customers |
| Oapp.GetOrderDetails | oapp.py:186-249 | None without a connection or order; the customer part is None iff the order has no user |
| Oapp.StatisticsWindow | oapp.py:326-339 | today, week, month or datetime.min, up to now; start <= end; fails only on week overflow |
| Oapp.WindowsAgreeWithUtils | oapp.py:326-339 | for the shared keywords these windows are get_time_period_dates' |
| Oapp.OrderStatistics | oapp.py:314-394 | zeroed totals and empty lists without a connection, on an exception, or on overflow; a missing totals row becomes zeros |
| Oapp.StatisticsUseDatabaseRows | oapp.py:382-386 | week and all-time report the database's totals, unlike models.py |
| Oapp.StatusBadge | oapp.py:738-747 | the 6-entry table; unknown, None and "refunded" give secondary |
| Oapp.PaymentBadge | oapp.py:749-755 | the 3-entry table; everything else gives secondary |
| Oapp.BadgesCompareWithApp | oapp.py:738-755 | status badges equal app.py's for every input; payment badges differ exactly for 'processing' |
| Oapp.AdminOrders | oapp.py:536-560 | without a connection, no query, no rows and total 0; otherwise get_all_orders' query for the requested page and filters, with its rows and total; the requested page and filters reach the template, with app.py's guarded page count |
| Oapp.AdminCustomers | oapp.py:616-644 | the same for customers: get_customers' query for the requested page and search, its rows and total, and the guarded page count (1 for no customers) |

## Left out

- Flask routing, templates, `flash`, `jsonify`, redirects, error handlers and the health endpoint are not modelled. Only the session is modelled, as a map.
- The meaning of the SQL (ILIKE, GROUP BY, aggregates, joins), psycopg connections, cursors, commit and rollback are not modelled. A raised exception is the `fault` or `None` parameter, and a rolled-back update leaves the table unchanged.
- The count queries' SQL text is not modelled. Examples: `SELECT COUNT(*) ... FROM users` (models.py:512, oapp.py:298) and `FROM orders` (oapp.py:170) are followed by conditions that name the aliases `u` and `o`.
- Cloudinary lookups (utils.py:21-39) and the image URLs the details route adds are network calls.
- Float formatting, strftime and `str()` are parameters (`render`, `strftime`, `show`). The number and date formats are not modelled.
- Config.ToIst: uses the fixed +05:30 offset of Asia/Kolkata; pytz's historical offsets for old dates are not modelled.
- The clock (`ist_now()`, `datetime.now()`) and the environment are inputs.
- Text.Lower: only ASCII letters change case, for `lower()` and `title()` alike. Python maps every Unicode cased letter.
- The formatted fields that the routes add to row dictionaries in place (app.py:291-307, 496-504, and the same loops in oapp.py and 9app.py) are rendering only.
- The demo data used when app.py's imports fail (app.py:219-228, 478-484) consists of constants only. Only the "Database modules not loaded" answers are modelled.
- The routes' own except branches for listing pages are not modelled. There get_all_orders and get_customers already catch their exceptions.
- `init_admin_tables`, `get_todays_orders`, `get_customer_details`, the statistics and items pages, the payment and customer endpoints, and 9config.py are not part of this model.
- The admin_id column is declared INTEGER (models.py:80) while the username string is passed to it. SQL typing is not modelled.
- Auth.Session.AdminUsername: a non-string value stored under admin_username reads as None. Login only ever stores a string there.

## Findings

| source | as written | input that shows it | evidently intended | confidence | as-written member | corrected member |
|---|---|---|---|---|---|---|
| models.py:352-363 | the week branch calls `timedelta` and the all-time branch names `UTC_TIMEZONE` and `IST_TIMEZONE`; models.py imports none of them (lines 4, 12), so NameError is caught and `{}` returned | `get_order_statistics('week')` at any time | week = now minus 7 days to now; all time = datetime.min in UTC, read in IST (0001-01-01 05:30), to now | not executed; high (names absent from every import) | Models.WeekAndAllTimeStatisticsAreEmpty | Models.IntendedStatisticsWindow |
| app.py:314 | the details answer reads `order_data['payment']`; models.get_order_details returns only order, items, customer and logs (models.py:331-336), so the KeyError is caught | any existing order id | answer with the order's payment row, as oapp.py does | not executed; high | App.OrderDetailsNeverSucceed | App.IntendedAdminOrderDetails |
