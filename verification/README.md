# Account-token snapshot query handler, in Dafny

This project models the read-side query handler for account-token snapshots in
a token-streaming SDK. An account-token snapshot is the indexing service's
(the subgraph's) record of one account's state for one super token. That state
is its balance, its inflow, outflow and net flow rates, its stream and
subscription counters, and the block number and timestamp of the last update.

The handler does three things:

- `mapFromSubgraphResponse` turns the service's raw list into typed entities.
  It maps element by element and keeps the order. The nested `{id}` references
  for `account` and `token` become bare identifier strings. The block-number
  and timestamp strings become numbers. Every other field is copied through.
- `getAddressFieldKeysFromFilter` names the filter keys that hold addresses,
  grouped by role: `account` for accounts, `token` for tokens.
- `getRelevantAddressesFromResultCore` extracts the addresses of one result,
  grouped by the same roles.

The project also models the tri-state `waitForConfirmation` flag of the
mutation argument shape. It is an explicit three-case enumeration, and `false`
and "unset" stay distinct.

Files:

- `decimal.dfy` (module `Decimal`): decimal digit strings. `ParseNat` models
  JavaScript's `Number(...)` on digit strings whose value is at most 2^53 - 1. `FormatNat` is the canonical
  rendering. The file proves both round trips.
- `snapshot.dfy` (module `AccountTokenSnapshot`): the raw record, the entity
  and the handler's three operations. `Unmap` is the inverse of `MapSnapshot`: the raw
  record the service would send for an entity. It is used to show that the
  mapping loses nothing.
- `mutation_args.dfy` (module `MutationArgs`): the confirmation policy.
- `wrappers.dfy` (module `Wrappers`): `Option`.

The handler has no error path for a malformed numeric string. It calls
`Number(...)` on the block-number and timestamp strings
(`accountTokenSnapshot.ts:75-76`); on a string that is not a number this gives
`NaN`, and the mapping carries on. The model therefore has no error path
either: it requires, through `WellFormed`, that both numeric fields are
non-empty digit strings whose value `Number` represents exactly.

## Model

| member | source | states |
|---|---|---|
| Decimal.ParseNat | packages/sdk-core/src/subgraph/entities/accountTokenSnapshot/accountTokenSnapshot.ts:75-76 | The value of a digit string of length k is below 10^k. |
| Decimal.ParseFormat | packages/sdk-core/src/subgraph/entities/accountTokenSnapshot/accountTokenSnapshot.ts:75-76 | Converting the canonical decimal rendering of any natural number gives that number back. |
| Decimal.FormatParse | packages/sdk-core/src/subgraph/entities/accountTokenSnapshot/accountTokenSnapshot.ts:75-76 | A digit string without leading zeros is exactly the canonical rendering of its value. |
| Decimal.ParseCanonicalInjective | packages/sdk-core/src/subgraph/entities/accountTokenSnapshot/accountTokenSnapshot.ts:75-76 | Two canonical digit strings with the same value are equal, so the conversion merges no distinct canonical numbers. |
| Decimal.LeadingZeroIgnored | packages/sdk-core/src/subgraph/entities/accountTokenSnapshot/accountTokenSnapshot.ts:75-76 | A leading zero does not change the value, as with `Number("007")`. |
| AccountTokenSnapshot.MapSnapshot | packages/sdk-core/src/subgraph/entities/accountTokenSnapshot/accountTokenSnapshot.ts:71-77 | For one raw record, the entity's `account` and `token` are the references' ids. `id` and all amounts, rates and counters are copied unchanged. The block number and timestamp are the decimal values of the raw strings, and both lie in the exactly representable range. |
| AccountTokenSnapshot.UnmapMapSnapshot | packages/sdk-core/src/subgraph/entities/accountTokenSnapshot/accountTokenSnapshot.ts:72-76 | Mapping a canonically rendered raw record loses nothing: every field, the two numbers included, can be recovered from the entity. |
| AccountTokenSnapshot.MapUnmapSnapshot | packages/sdk-core/src/subgraph/entities/accountTokenSnapshot/accountTokenSnapshot.ts:24-40 | Every entity whose numbers are in the exact range is the mapping of some raw record, so the entity type has no value the handler cannot produce. |
| AccountTokenSnapshot.MapAll | packages/sdk-core/src/subgraph/entities/accountTokenSnapshot/accountTokenSnapshot.ts:71-77 | The output has as many elements as the raw list, and the i-th entity is the mapping of the i-th raw record. |
| AccountTokenSnapshot.MapFromSubgraphResponse | packages/sdk-core/src/subgraph/entities/accountTokenSnapshot/accountTokenSnapshot.ts:68-77 | The output has the same length as the response's list, and an empty response gives an empty list. Element i has the i-th record's id, totals and account and token ids, plus the decimal values of its block-number and timestamp strings. |
| AccountTokenSnapshot.MapAllAppend | packages/sdk-core/src/subgraph/entities/accountTokenSnapshot/accountTokenSnapshot.ts:71 | Mapping a concatenation gives the concatenation of the mappings, so nothing is re-sorted, filtered or merged. |
| AccountTokenSnapshot.UnmapAllMapAll | packages/sdk-core/src/subgraph/entities/accountTokenSnapshot/accountTokenSnapshot.ts:71-77 | A canonically rendered response is recovered exactly, element by element and in order, from its mapped list. |
| AccountTokenSnapshot.GetAddressFieldKeysFromFilter | packages/sdk-core/src/subgraph/entities/accountTokenSnapshot/accountTokenSnapshot.ts:53-59 | The result takes no input. Its two roles together list exactly the entity's address-typed fields, with one key per role and no key in both roles. The account key names the field holding the account's address and the token key the field holding the token's. |
| AccountTokenSnapshot.GetRelevantAddressesFromResultCore | packages/sdk-core/src/subgraph/entities/accountTokenSnapshot/accountTokenSnapshot.ts:61-66 | There is exactly one token address, the result's `token`, and exactly one account address, the result's `account`. The result has no other roles. |
| AccountTokenSnapshot.FilterKeysSelectRelevantAddresses | packages/sdk-core/src/subgraph/entities/accountTokenSnapshot/accountTokenSnapshot.ts:53-66 | In each role, the addresses reported for a result are exactly the values of that result's fields named by the filter keys of that role. |
| AccountTokenSnapshot.RelevantAddressesOfMapped | packages/sdk-core/src/subgraph/entities/accountTokenSnapshot/accountTokenSnapshot.ts:61-77 | For every mapped element, the relevant addresses are exactly the raw record's `token.id` and `account.id`. |
| MutationArgs.FromOptionalBool | packages/sdk-redux/src/redux-slices/argTypes.ts:34-40 | An unset flag reads as "use the dispatcher's default", and only an explicit `false` reads as "do not wait". |
| MutationArgs.ToOptionalBool | packages/sdk-redux/src/redux-slices/argTypes.ts:34-40 | Writing a policy back as the optional boolean and reading it again gives the same policy. The unset value stands only for the default policy. |
| MutationArgs.OptionalBoolRoundTrip | packages/sdk-redux/src/redux-slices/argTypes.ts:40 | Every optional boolean, the unset value included, survives the trip through the three-case policy. |

## Left out

- AccountTokenSnapshot.MapSnapshot: models `Number(...)` only on non-empty digit strings whose value is at most 2^53 - 1. Over that range, `Number` is the exact decimal value. Above 2^53 it rounds to a nearby double, and on strings that are not numbers it gives `NaN`; both are floating-point behaviour and are excluded by the `WellFormed` precondition rather than modelled. `Number("")` and `Number("  ")` are 0, not `NaN`; `WellFormed` excludes them too (through `IsDigitString`), although `ParseNat("")` is also 0. `Number` also accepts surrounding whitespace, signs, fractions, exponents and hexadecimal strings, and none of these is modelled.
- Decimal.ParseNat: agrees with `Number(...)` only for values up to 2^53 - 1; above that `Number` rounds and `ParseNat` stays exact.
- The request document (`requestDocument`) and the generated schema, document and filter types are external, generated collaborators. The model treats filter keys as field-name strings.
- The base query handler that builds paginated requests and collects addresses across results is not part of this model.
- Big-number fields (amounts and flow rates) are opaque strings. The handler does no arithmetic on them.
- The GraphQL `__typename` and any other extra fields the spread would also copy are not represented. The raw record holds exactly the entity's fields.
- The deploy script for streaming flows is out of scope. It is network I/O, transaction signing and broadcast with no algorithm to state.
- The remaining argument shapes (`TransactionInfo`, `BaseQuery`, `BasePaginatedQuery`, the other `Nothing*` aliases) are type declarations with no behaviour.
