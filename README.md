# onlyfunds front end: a Dafny model of its logic

The repository is a crowdfunding dApp front end. Almost all of it is React markup and
calls into wallet, contract and document-store SDKs. This project models the small
amount of logic it has itself:

- **`BlockProvider`** (`src/components/BlockHandler.js`), the state container behind
  the UI. It is modelled as the class `BlockHandler.BlockProvider` with the fields
  `address` and `projects` (plus `personalProjects`, which nothing changes) and one
  method per state change: mount, the `accountsChanged` handler, `connect` and
  `createProject`. `createProject` writes its record to the "projects" document
  collection, not to `state.projects`. The collection is modelled as the class
  `DocumentStore`, and the caller's `data` object, whose dates `createProject`
  overwrites, as the class `ProjectData`. The pure parts are functions:
  - `toBigNumber` is `ToBigNumber`;
  - the first-or-null choice in `activeMetaMaskWallet` is `ActiveMetaMaskWallet`;
  - the contract-call arguments are `CallArgs`, with `Math.round(ms / 1000)` as `RoundToSeconds`;
  - the stored record is `NewRecord`.
- **The pie-chart data** (`src/components/Chart.js`). `Chart.ChartData` gives the two
  segments "Goal" and "Funded", or nothing when there is no project.
- **`classNames`** (`src/template/SlideOver.js`). JavaScript arguments are modelled
  as the datatype `JsValue`, with truthiness as `Truthy` and string conversion as
  `ToStr`. `ClassNames` filters the arguments, converts them and joins them with
  single spaces.

SDK results are parameters of the operations:
- the wallet's account list, or None when `listAccounts` rejects;
- the signer's address, or None when the wallet rejects the request;
- the `getDocs` response in iteration order, or None when `getDocs` rejects;
- the transaction's outcome (`TxOutcome`);
- whether `addDoc` succeeds;
- the three clock readings (two `new Date()`, one `Date.now()`);
- the `uuid()` value.

Each event handler is one atomic update.

Two behaviours of the code are worth stating:

- `toBigNumber(a)` computes `(a·10)^18`, because `.pow(18)` applies to the product.
  `toBigNumber(5)` is therefore `50^18`, not the fixed-point `5·10^18`.
  `ToBigNumberIsScalingIff` proves that the code's value equals `a·10^18` only
  for 0 and 1, and `ToBigNumberFive` that 5 becomes `50^18`.
- MetaMask reports a disconnect as `accountsChanged` with an empty list. The handler
  then stores `wallets[0]`, which is `undefined`. `connect` only acts when the
  address is `=== null`, so after a disconnect it does nothing.
  `BlockHandler.ConnectAfterDisconnect` states this. That is why the address is the
  three-way `AddressSlot` (`Null | Undefined | Addr`) rather than an option.

`uuid()` is a parameter of `createProject`; the model does not assume that ids are distinct.

## Model

| member | source | states |
|---|---|---|
| `BlockHandler.ToBigNumberFactors` | src/components/BlockHandler.js:85-87 | the converted amount is a^18 · 10^18: the 18th power applies to amount · 10 |
| `BlockHandler.ToBigNumberIsScalingIff` | src/components/BlockHandler.js:85-87 | the conversion equals the fixed-point a · 10^18 if and only if a is 0 or 1 |
| `BlockHandler.ToBigNumberZeroOne` | src/components/BlockHandler.js:85-87 | an amount of 0 converts to 0, and an amount of 1 to 10^18 |
| `BlockHandler.ToBigNumberFive` | src/components/BlockHandler.js:85-87 | an amount of 5 converts to 50^18 |
| `BlockHandler.ActiveMetaMaskWallet` | src/components/BlockHandler.js:37-40 | no active wallet exactly when the account list is empty; otherwise the first account |
| `BlockHandler.RoundToSeconds` | src/components/BlockHandler.js:103-104 | the result is the whole second within half a second of the instant, with ties going to the later second |
| `BlockHandler.RoundToSecondsUnique` | src/components/BlockHandler.js:103-104 | any second within that half-second window is the rounded value |
| `BlockHandler.RoundToSecondsExact` | src/components/BlockHandler.js:103-104 | whole seconds round to themselves; exactly half a second rounds up |
| `BlockHandler.CallArgs` | src/components/BlockHandler.js:97-104 | the contract gets name = title, symbol = title + "_DAO", creator = the current address, both caps converted by `toBigNumber`, and both dates rounded to seconds |
| `BlockHandler.SymbolRecoversTitle` | src/components/BlockHandler.js:98-99 | stripping the "_DAO" suffix from the symbol gives back the name |
| `BlockHandler.NewRecordFields` | src/components/BlockHandler.js:108-122 | the record carries exactly the caller's form fields, backers = 0, and the given dates, creation time and id |
| `BlockHandler.CollectProjects` | src/components/BlockHandler.js:65-68 | the `forEach`/`push` loop yields one entry per document, in iteration order, holding that document's data |
| `BlockHandler.DocumentStore.AddDoc` | src/components/BlockHandler.js:108-122 | a successful write appends exactly the record; a failed one leaves the collection unchanged |
| `BlockHandler.BlockProvider.constructor` | src/components/BlockHandler.js:18-22 | initial state: address null, projects the placeholders [1, 2, 3], no personal projects, no handler registered |
| `BlockHandler.BlockProvider.ComponentDidMount` | src/components/BlockHandler.js:48-71 | a rejected `listAccounts` aborts the mount with nothing changed; otherwise the address is set to the first account only when one is active and is otherwise kept, the handler is registered when a wallet is injected, and projects becomes exactly the documents' data unless `getDocs` rejects, in which case projects keeps its previous value (the placeholders, on the first mount) |
| `BlockHandler.BlockProvider.AccountsChanged` | src/components/BlockHandler.js:55-57 | once registered, the event overwrites the address with the first wallet (undefined for an empty list); without an injected wallet it never has an effect; nothing else changes |
| `BlockHandler.BlockProvider.Connect` | src/components/BlockHandler.js:73-83 | state unchanged unless the address is null; then the address becomes the signer's, unless the request is rejected |
| `BlockHandler.BlockProvider.CreateProject` | src/components/BlockHandler.js:89-131 | both dates are written into `data`; the contract receives `CallArgs`; the collection gains exactly one `NewRecord` after a confirmed transaction and a successful write, and is unchanged otherwise |
| `BlockHandler.ConnectAfterDisconnect` | src/components/BlockHandler.js:55-82 | after an empty `accountsChanged`, the address is undefined and a later `connect` leaves it so |
| `BlockHandler.ConnectWithoutActiveWallet` | src/components/BlockHandler.js:48-52 | with no active wallet the mounted address stays null, and `connect` then sets it to the signer |
| `BlockHandler.MountWithRejectedLoad` | src/components/BlockHandler.js:62-70 | when `getDocs` rejects, the address is still set from the active wallet but projects keeps the placeholders [1, 2, 3] |
| `BlockHandler.CreateThenCount` | src/components/BlockHandler.js:105-130 | the collection grows by one exactly on confirmation plus a successful write, and the new last record holds the form's fields with zero backers |
| `Chart.ChartData` | src/components/Chart.js:14-18 | no data without a project; otherwise exactly two entries, "Goal" then "Funded", where Goal = hardCap and Funded + softCap = Goal |
| `Chart.Labels` | src/components/Chart.js:40 | each slice is labelled with its entry's title |
| `Chart.ChartLabels` | src/components/Chart.js:15-18 | the labels of a project's chart are "Goal", "Funded" |
| `Chart.FundedNegativeIff` | src/components/Chart.js:17 | Funded is not clamped: it is negative exactly when softCap > hardCap |
| `Chart.FundedEqualsGoalIff` | src/components/Chart.js:17 | Funded equals Goal exactly when softCap = 0 |
| `Chart.ChartExample` | src/components/Chart.js:16-17 | caps 100 and 40 give segment values 100 and 60 |
| `Chart.ChartOfNewRecord` | src/components/Chart.js:16-17 | a newly created record's chart shows the form's hardCap and hardCap − softCap |
| `SlideOver.Truthies` | src/template/SlideOver.js:8 | every kept argument is truthy and comes from the arguments, and every truthy argument is kept (order and multiplicity: `TruthiesAppend`) |
| `SlideOver.TruthiesAppend` | src/template/SlideOver.js:8 | filtering a concatenation is the concatenation of the filtered parts, so argument order and repeated arguments are kept |
| `SlideOver.TruthiesSingleton` | src/template/SlideOver.js:8 | a single argument is kept exactly when it is truthy |
| `SlideOver.TruthyRendersNonEmpty` | src/template/SlideOver.js:8 | a truthy argument never converts to the empty string |
| `SlideOver.ClassNamesEmptyIff` | src/template/SlideOver.js:7-9 | the result is empty exactly when no argument is truthy (including no arguments) |
| `SlideOver.ClassNamesCons` | src/template/SlideOver.js:7-9 | reference definition: a falsy first argument adds nothing, and a truthy one adds its string plus one space when later arguments contribute |
| `SlideOver.ClassNamesDropsFalsy` | src/template/SlideOver.js:8 | a falsy argument anywhere is dropped and leaves no separator |
| `SlideOver.SingleStringUnchanged` | src/template/SlideOver.js:8 | a single truthy string argument is returned unchanged |
| `SlideOver.ClassNamesLength` | src/template/SlideOver.js:8 | with k ≥ 1 truthy arguments, the length is the sum of their lengths plus k − 1 |
| `SlideOver.ClassNamesSplit` | src/template/SlideOver.js:8 | when no argument contains a space, splitting the result on spaces gives back the truthy arguments' strings, in order |

## Left out

- `uploadPhoto` (src/components/BlockHandler.js:133-183) is not modelled. It is resumable-upload callbacks and logging, with no logic of its own.
- `fetchFromChain` is an empty stub.
- Provider and contract construction, `eth_requestAccounts`, `response.wait()`, `collection`, `getDocs`, `addDoc` and `toast` are SDK calls. They appear only as parameters: an account list or rejection, a signer address or rejection, a document list or rejection, a `TxOutcome`, a write success flag. The loading and success/error notifications are not modelled.
- `uuid()` and the clock calls are parameters. Their freshness and values are not modelled.
- React `setState` batching and asynchrony are not modelled. Each handler is one atomic update.
- The `accountsChanged` listener is never removed. The model keeps one registration flag and does not count listeners.
- All JSX is left out: the `Example` component in SlideOver.js and the `PieChart` props and styling in Chart.js.
- Numbers are integers. JavaScript string-to-number coercion of form values, floating point in `getTime() / 1000`, and `BigNumber.from` throwing on non-integer input are not modelled.
- Chart.ChartData: takes a stored project record. A placeholder entry of `projects` (the numbers 1, 2, 3) would give a Goal value of `undefined` and a Funded value of `NaN` in the source, and that is not modelled.
- SlideOver.ToStr: covers booleans, null, undefined, NaN, integers below 10^21 in magnitude and strings. Larger integers, which JavaScript writes in exponent form (`1e+21`), objects, arrays and fractional numbers as `classNames` arguments are not modelled.
