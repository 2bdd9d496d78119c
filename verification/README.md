# Online e-commerce backend: sales dashboard and accounts, in Dafny

This project models the in-memory logic of a small Express/MongoDB shop
backend (`server.js`):

- **The dashboard statistics** (`GET /api/dashboard-stats`). The handler walks
  the fetched orders once. It adds every `totalAmount` into `totalRevenue`. It
  also adds the amount into a bucket object keyed by the order's day label.
  Then it lists the bucket keys as the chart `labels` and the bucket values as
  the chart `data`, and reports `totalOrders` as the number of orders.
  `Dashboard.AccumulateSales` is that loop. It keeps the bucket map and the
  key creation order, which is the order `Object.keys`/`Object.values` list
  string keys that are not array indices (no "Mon D" label is one). `Dashboard.ComputeStats` builds the chart from them
  and is proved equal to the specification function `Dashboard.Summary`.
  Lemmas about `Summary` then prove the following:
  - labels are distinct;
  - labels come in first-appearance order;
  - each `data[i]` is the sum over exactly the orders labelled `labels[i]`;
  - the buckets partition the revenue;
  - the revenue does not depend on the order of the orders.
- **The day label** of an order is the `toLocaleDateString('en-US', { month:
  'short', day: 'numeric' })` string. It is a parameter
  `dayLabel: Order -> string` of the aggregation, and no formatting is
  modelled. The label has no year, so orders on the same month and day of
  different years share a bucket. `Dashboard.SameDayDifferentYears` shows this
  on a worked example.
- **Login** (`POST /login`). An unknown email or a wrong password is rejected.
  Otherwise the user is redirected by role: `admin` to `/admin`, `seller` to
  `/seller`, any other role to `/`.
- **Signup** (`POST /signup`). This is a lookup and then an insert into the
  user collection, modelled as `Accounts.UserStore`, a class holding a
  `map<string, User>` keyed by email. An existing email changes nothing.
  Otherwise the new account is saved with the default role `buyer`. The
  schema marks `email` and `password` as required (server.js:25-26), so the
  save fails and nothing is stored when either is the empty string.

Amounts are `real`, so all sums are exact.

The bucket test `if (salesData[dateStr])` is a JavaScript truthiness test. The
model writes it as it is: the key is present and its value is non-zero. A
property is created, and so appended to the key order, only when the key is
new. A present bucket holding 0 takes the `=` branch. For numbers that gives
the same value as adding to it.

Roles are free strings in the schema (server.js:27). Login tells only `admin`
and `seller` apart; any other value goes to `/`.

The code has no guard for a missing `totalAmount` (server.js:178, 184, 186).
Amounts are always numbers in the model.

## Model

| member | source | states |
|---|---|---|
| `Dashboard.AccumulateSales` | server.js:174-188 | The `forEach` loop. The revenue it accumulates is the sum of all amounts. Its key list is the distinct day labels in creation order. The bucket map has exactly those keys, and each key maps to the sum of the amounts of the orders with that label. |
| `Dashboard.ComputeStats` | server.js:174-198 | The whole aggregation, with `labels`/`data` as the bucket keys/values, returns exactly `Summary(orders, totalProducts, dayLabel)`. So `totalOrders` is the number of orders and `totalRevenue` is the sum of all amounts. `labels` and `data` have equal length and labels are distinct. That the data sums to `totalRevenue` is `BucketsPartitionRevenue` about `Summary`. |
| `Dashboard.OneMoreOrder` | server.js:177-187 | One loop step. The revenue grows by the order's amount. The order's label is appended to the labels iff it is new, and a new label's bucket was 0 before. Only the bucket of the order's own label grows, by its amount. |
| `Dashboard.DayLabels` | server.js:183-191 | The chart labels have no duplicates. A string is a label iff some order carries that day label. |
| `Dashboard.FirstIndex` | server.js:183-191 | Gives the position of the first order with a given label, or the number of orders when none has it. Every earlier order has a different label. |
| `Dashboard.DayTotals` | server.js:192 | The chart data has one entry per label. Entry `i` is the sum of the amounts of exactly the orders labelled `labels[i]`. |
| `Dashboard.DayTotalOfUnseenDay` | server.js:183-186 | A day that no order is labelled with has an empty bucket (0), so a bucket created on a new key starts at the order's amount. |
| `Dashboard.AppendOrderTotals` | server.js:177-187 | Processing one more order adds its amount to the bucket of its own day and to no other. |
| `Dashboard.BucketsPartitionRevenue` | server.js:177-192 | The chart data sums to `totalRevenue`: the day buckets partition the revenue. |
| `Dashboard.LabelsInFirstAppearanceOrder` | server.js:183-191 | Every label occurs among the orders. Labels are listed in strictly increasing order of their first occurrence. This is how `Object.keys` lists properties that are not array indices: in creation order. |
| `Dashboard.RevenueConcat` | server.js:174-178 | The revenue of two lists of orders put together is the sum of their revenues. |
| `Dashboard.RevenuePermutation` | server.js:174-178 | Any two lists holding the same orders (as multisets) give the same `totalRevenue`. |
| `Dashboard.NoOrders` | server.js:174-198 | With no orders the result is 0 orders, revenue 0, and an empty `labels` and `data`. |
| `Dashboard.SameDayDifferentYears` | server.js:181-187 | Example: orders of 100 and 50 labelled "Nov 23" (from different years) and 75 labelled "Nov 24", with 10 products. The result is 3 orders, revenue 225, labels ["Nov 23", "Nov 24"], data [150, 75]. |
| `Accounts.Login` | server.js:87-97 | The outcome is invalid iff the email is unknown or the password differs from the stored one. Otherwise the redirect is `/admin` iff the role is `admin` and `/seller` iff it is `seller`, and `/` for any other role. |
| `Accounts.Register` | server.js:24-75 | Refused as "already exists" iff the email is stored. Refused by validation iff the email is new and the email or password is empty. A refused signup leaves the accounts unchanged. Otherwise exactly one account is added, `(email, password, "buyer")`, and every other account is kept as it was. |
| `Accounts.LookupIsFindByEmail` | server.js:25-85 | Under the unique email index, some account has a given email iff the map holds that email as a key, and the only such account is the one stored under it. So the map lookup is `findOne({ email })`. |
| `Accounts.RegisterKeepsWellFormed` | server.js:24-75 | Signup keeps every account stored under its own email, with a non-empty email and password. |
| `Accounts.LoginAfterSignup` | server.js:71-97 | After a successful signup with a new email and a non-empty email and password, logging in with that email and password redirects to `/`, the page of the default `buyer` role. |
| `Accounts.RejectedSignupKeepsLogins` | server.js:25-89 | A signup with an empty email or password registers nothing, and login with that email gives the same outcome as before. |
| `Accounts.SignupKeepsOtherLogins` | server.js:71-97 | Signup leaves the login outcome of every other email unchanged. When signup is refused, it leaves all login outcomes unchanged. |
| `Accounts.UserStore.Signup` | server.js:71-75 | The lookup-then-save on the user collection. It reports "already exists" iff the email was stored. It reports a validation failure iff the email is new and the email or password is empty. In both cases the collection is unchanged. Otherwise it inserts `(email, password, "buyer")` and nothing else. It keeps the accounts well formed, and its result agrees with `Register`. |

## Left out

- Express routing, static pages, body parsing and the listening server (server.js:1-21, 59-65, 207-209) are HTTP plumbing.
- The MongoDB connection, the schemas' persistence and the product/order routes (server.js:12-14, 104-163) are thin calls into a database library. The product count enters the aggregation as the plain input `totalProducts`, and the orders as a sequence.
- The user lookup `User.findOne({ email })` is a map lookup by email. This relies on the unique index on `email` (server.js:25). It also assumes the request fields `email` and `password` are strings. The body parsers (server.js:18-20) can make them objects such as `{"$ne": ""}`, which `findOne` reads as a query operator; that is not modelled.
- Dashboard.AccumulateSales: models the bucket object as a map with no inherited properties, keyed by any string. So it assumes day labels are neither array-index strings (which `Object.keys` lists first, in numeric order) nor names of `Object.prototype` properties (such as `constructor`, which is truthy before any order). The "Mon D" labels are neither.
- Dashboard.LabelsInFirstAppearanceOrder: first-appearance order is `Object.keys` order only under the same assumption on the labels.
- The schema's required-field check is modelled only for the empty string. A missing or `null` field, or a field of another type, is not modelled, since fields are assumed to be strings.
- `toLocaleDateString` formatting is not modelled. The day label is the parameter `dayLabel`.
- Floating-point `Number` arithmetic is not modelled. Amounts are exact reals, and the partition property holds only over exact arithmetic. `NaN` and an undefined `totalAmount` are also not modelled.
- The race between the signup lookup and the insert is not modelled: signup is one atomic step.
- Error-to-500 mapping, response bodies, redirects as HTTP responses and the fetch failures of the dashboard are I/O. Login's outcome is the redirect path or "invalid". A signup that fails validation is the outcome `ValidationFailed`; the handler answers it with a 500 (server.js:77-78).
- Order fields other than `totalAmount` are carried in `Order` but not used by the aggregation. Line items are opaque strings.
