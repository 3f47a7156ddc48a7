# App-group records and transit data keys, in Dafny

This project models two pieces of request handling in a Vault fork:

- The app-group credential backend's table of group records (`builtin/credential/appgroup/path_group.go`).
  - Each record (`groupStorageEntry`) holds apps, additional policies, a use count, TTL, MaxTTL and a wrapping duration.
  - It is stored under `"group/" + strings.ToLower(name)`.
  - The handlers are: create-or-update, read and delete of a whole record, plus an update and a read handler for each of the six fields.
- The transit backend's data-key endpoint (`builtin/logical/transit/path_datakey.go`). It runs its checks in a fixed order:
  - the path variant;
  - the base64 context;
  - the policy lookup, which takes a lock released by a deferred unlock;
  - the bit count.
  
  It then reads a random key in place, encrypts its base64 under the policy, and answers with the ciphertext. It adds the plaintext key only on the "plaintext" variant of the path.

The files:

- `wrappers.dfy`: the Option and Result datatypes.
- `go_int.dfy` (module `GoInt`): Go's int64 and `time.Duration`.
  - Seconds times `time.Second` wraps around on overflow, in two's complement.
  - A Duration divided by `time.Second` truncates toward zero.
- `go_strings.dfy` (module `GoStrings`): the string functions the handlers use.
  - `strings.ToLower` on ASCII, and when two names lower-case alike.
  - `strings.Split` with its round trip through joining.
- `app_group.dfy` (module `AppGroup`).
  - Each handler is first a function from the table (a `map` from storage key to record), the request and the storage outcome, to the reply and the new table. The properties are lemmas about those functions.
  - The class `GroupBackend` holds the table as a field. Its methods follow the Go handlers step by step, and each is proved to produce exactly what its function describes.
  - The class invariant `Valid()` is that every stored record has TTL ≤ MaxTTL.
- `transit_datakey.dfy` (module `TransitDatakey`).
  - `DatakeyWrite` follows `pathDatakeyWrite`. `UnderLock` is the part run while the policy is locked, and `ReadRandom` fills the key array in place.
  - Each is proved against a function of its inputs. A ghost trace of the calls made on the lock manager, the random source and the policy is proved against a function too.

The storage, the lock manager, the key policy, base64 and the random source are not modelled inside; they are inputs:

- Storage failures are a `Fault` parameter:
  - a failed `Get` or JSON decode is a `ReadFault`;
  - a failed `Put` or `Delete` is a `WriteFault`.
- The framework's `FieldData` is a `Request` map holding the supplied fields. `GetOk(k)` succeeds exactly when `k` is in the map.
- `policyutil.ParsePolicies` is a function-valued field of the backend.
- The lock manager's `GetPolicy` is a function from names to lookups, and a found policy carries its `Encrypt` as a function.
- Base64 is a pair of functions. Only where a lemma says so is it assumed to round-trip.
- The random source is a finite stream of bytes and the error that ends it.

Two lines of `path_group.go` do not compile, so there is no behaviour as written to model. The model follows the evident intent of both:

- Line 539: the max-TTL handler reads a variable that the line does not define. The value the line before binds comes from the "max_ttl" field, so `MaxTTLUpdate` stores that value.
- Line 583: the wrapped handler assigns to an undeclared `app`. The record being stored is `group`, so `WrappedUpdate` sets `group`'s wrapping duration.

Two lines (265 and 453) compile but miss their field: they look the use count up under the wrong name (see Findings).

## Model

| member | source | states |
|---|---|---|
| AppGroup.ReadFaultsReturned | builtin/credential/appgroup/path_group.go:243-246 | for a non-empty name, a failed storage read is returned as that same error by the create-or-update, the per-field update, the record read and the field read, and nothing is written |
| AppGroup.WriteFaultsReturned | builtin/credential/appgroup/path_group.go:296-297 | for a non-empty name, a failed write is returned as that same error with the table unchanged: always for a delete, for a create or update whose merged record keeps TTL ≤ MaxTTL, and for a per-field update of an existing group whose value is supplied and not refused |
| AppGroup.CreateOrUpdateKeepsBound | builtin/credential/appgroup/path_group.go:287-289 | a create or update never stores a record whose TTL exceeds its MaxTTL |
| AppGroup.CreateOrUpdateWritesRecordOrNothing | builtin/credential/appgroup/path_group.go:235-298 | a create or update answers with no response iff the name is non-empty, storage works and the merged record keeps TTL ≤ MaxTTL; it then stores that one record under the group's key, and otherwise leaves the table as it was |
| AppGroup.CreateOrUpdateChangesOnlySupplied | builtin/credential/appgroup/path_group.go:245-294 | after a successful create or update, each field holds the supplied value; otherwise it keeps the stored value, or zero for a new group |
| AppGroup.EmptyNameRejected | builtin/credential/appgroup/path_group.go:236-239 | every handler answers an empty group name with "missing group_name" and leaves the table unchanged |
| AppGroup.UpdateFieldKeepsBound | builtin/credential/appgroup/path_group.go:494-501 | no per-field update stores a record with TTL above MaxTTL: the TTL and MaxTTL updates refuse to, and the other four do not touch either value |
| AppGroup.UpdateFieldChangesOnlyThatField | builtin/credential/appgroup/path_group.go:357-377 | a per-field update writes nothing unless it answers with no response, and it answers with no response and writes nothing for a group that does not exist. For an existing group it answers "missing <field>" when the value is not supplied, and refuses a TTL or MaxTTL that would put TTL above MaxTTL with that field's message. It answers with no response iff the name is set, storage works, the value is supplied and the bound holds. It then replaces only that group's record, setting the one field to its supplied value and keeping every other field |
| AppGroup.CreateOrUpdateIgnoresCase | builtin/credential/appgroup/path_group.go:300-306 | a create or update with a case variant of the name gives the same reply and the same table |
| AppGroup.UpdateFieldIgnoresCase | builtin/credential/appgroup/path_group.go:308-324 | a per-field update with a case variant of the name gives the same reply and the same table |
| AppGroup.DeleteAndReadsIgnoreCase | builtin/credential/appgroup/path_group.go:348-355 | delete, read and per-field read give the same results for names that differ only in case |
| AppGroup.UpdateThenReadSeconds | builtin/credential/appgroup/path_group.go:494-522 | after a TTL, MaxTTL or wrapped update with s seconds, reading that field reports s, for \|s\| up to 9223372036 |
| AppGroup.CreateThenReadSeconds | builtin/credential/appgroup/path_group.go:272-344 | after a create or update that supplies a duration as s seconds, with \|s\| up to 9223372036, both the record read and the field read report s |
| AppGroup.ReadsOfPolicies | builtin/credential/appgroup/path_group.go:420-437 | a stored policies list is reported unchanged, under "additional_policies", by the field read and the record read |
| AppGroup.PoliciesUpdateThenRead | builtin/credential/appgroup/path_group.go:412-414 | after a successful policies update of an existing group with the string p, the field read and the record read both report ParsePolicies(p) |
| AppGroup.PoliciesCreateThenRead | builtin/credential/appgroup/path_group.go:260-262 | after a successful create or update that supplies the policies string p, the field read and the record read both report ParsePolicies(p) |
| AppGroup.CreateThenReadApps | builtin/credential/appgroup/path_group.go:255-257 | the apps a read reports after a create or update join back, with commas, to exactly the supplied string |
| AppGroup.DeleteThenRead | builtin/credential/appgroup/path_group.go:348-355 | after a successful delete, reading the group under any case variant of its name gives no response |
| AppGroup.ReadGroupAgreesWithReadField | builtin/credential/appgroup/path_group.go:326-346 | the record read and each field read fail alike, and when they succeed they report the same value for the field |
| AppGroup.NumUsesNeverReadAsWritten | builtin/credential/appgroup/path_group.go:264-267 | with the handlers' "num_uses", a merge never changes the use count and the use-count update never writes, for any request the schema admits |
| AppGroup.NumUsesAsWrittenExample | builtin/credential/appgroup/path_group.go:46-49 | creating group "web" with num-uses 5 stores a count of 0 as written, and 5 under the schema's name |
| AppGroup.NumUsesUpdateStoresSupplied | builtin/credential/appgroup/path_group.go:439-478 | under the schema's name, a use-count update of an existing group stores the supplied count, and the use-count read reports it |
| AppGroup.Converted | builtin/credential/appgroup/path_group.go:255-294 | a supplied value is stored with the field's kind; apps split into comma-free parts; an int64 count is stored as given; s seconds become s * time.Second whenever that fits |
| AppGroup.Assign | builtin/credential/appgroup/path_group.go:254-257 | one "update only if supplied" step: no change when the field is absent; otherwise that field gets the converted value and every other field is kept |
| AppGroup.Merged | builtin/credential/appgroup/path_group.go:253-294 | after all the steps, each supplied field holds its converted value and each other field its value in the base record |
| AppGroup.CreateOrUpdate | builtin/credential/appgroup/path_group.go:235-298 | a create or update changes the table only when it answers with no response; it adds no key but the group's, and leaves every other record as it was |
| AppGroup.UpdateField | builtin/credential/appgroup/path_group.go:357-377 | a per-field update never adds or removes a key, changes nothing unless it answers with no response, and leaves every other group's record as it was |
| AppGroup.DeleteGroup | builtin/credential/appgroup/path_group.go:348-355 | a delete answers with no response iff the name is set and storage works; it then removes exactly the group's key, and otherwise changes nothing; no surviving record changes |
| AppGroup.ReadGroup | builtin/credential/appgroup/path_group.go:326-346 | the record read returns data iff the name is set, storage works and the group exists, with exactly the six struct-tag fields; an unknown group gives no response |
| AppGroup.ReadField | builtin/credential/appgroup/path_group.go:379-396 | a per-field read returns data iff the name is set, storage works and the group exists, with exactly that field's key; an unknown group gives no response |
| AppGroup.ReadsOfSeconds | builtin/credential/appgroup/path_group.go:504-522 | a stored duration of s * time.Second is reported as s by the field read and the record read |
| AppGroup.ExampleCreate | builtin/credential/appgroup/path_group.go:264-267 | the example request creates group "web"; the stored count is 5 under "num-uses" and 0 under "num_uses" |
| AppGroup.ExampleConforms | builtin/credential/appgroup/path_group.go:46-49 | the example request holds only declared fields of their declared types |
| AppGroup.GroupBackend.ApplyNamesAndCount | builtin/credential/appgroup/path_group.go:254-267 | the first three supply-if-present steps (apps, policies, use count) give the record the step functions give |
| AppGroup.GroupBackend.LoadGroup | builtin/credential/appgroup/path_group.go:308-324 | "missing group_name" for an empty name, the storage error on a failed read, otherwise the record under "group/" + lower-case name, or none |
| AppGroup.GroupBackend.StoreGroup | builtin/credential/appgroup/path_group.go:300-306 | a working storage holds the record under "group/" + lower-case name afterwards; a failing storage is unchanged and its error is returned |
| AppGroup.GroupBackend.ApplySupplied | builtin/credential/appgroup/path_group.go:253-294 | the supplied fields, set one by one in the handler's order over the loaded record, give the merged record, or the TTL error when its TTL exceeds its MaxTTL |
| AppGroup.GroupBackend.CreateUpdate | builtin/credential/appgroup/path_group.go:235-298 | the reply and the new table are those of the create-or-update function, reading the use count under the corrected name "num-uses", and TTL ≤ MaxTTL still holds for every record |
| AppGroup.GroupBackend.Read | builtin/credential/appgroup/path_group.go:326-346 | the reply is that of the record-read function (durations in seconds); the table is not changed |
| AppGroup.GroupBackend.Delete | builtin/credential/appgroup/path_group.go:348-355 | the reply and the new table are those of the delete function: the group's key is gone unless the name is empty or storage fails |
| AppGroup.GroupBackend.Existing | builtin/credential/appgroup/path_group.go:358-369 | a per-field handler's early returns: "missing group_name", the storage error, no response for an unknown group; otherwise the stored record |
| AppGroup.GroupBackend.AppsUpdate | builtin/credential/appgroup/path_group.go:357-377 | the reply and new table are those of the apps update; TTL ≤ MaxTTL is kept |
| AppGroup.GroupBackend.AppsRead | builtin/credential/appgroup/path_group.go:379-396 | the reply is that of the apps read |
| AppGroup.GroupBackend.AdditionalPoliciesUpdate | builtin/credential/appgroup/path_group.go:398-418 | the reply and new table are those of the additional-policies update; TTL ≤ MaxTTL is kept |
| AppGroup.GroupBackend.AdditionalPoliciesRead | builtin/credential/appgroup/path_group.go:420-437 | the reply is that of the additional-policies read |
| AppGroup.GroupBackend.NumUsesUpdate | builtin/credential/appgroup/path_group.go:439-459 | the reply and new table are those of the use-count update under the schema's name "num-uses"; TTL ≤ MaxTTL is kept |
| AppGroup.GroupBackend.NumUsesRead | builtin/credential/appgroup/path_group.go:461-478 | the reply is that of the use-count read |
| AppGroup.GroupBackend.TTLUpdate | builtin/credential/appgroup/path_group.go:480-502 | the reply and new table are those of the TTL update, which refuses a TTL above MaxTTL with "ttl should not be greater than max_ttl"; TTL ≤ MaxTTL is kept |
| AppGroup.GroupBackend.TTLRead | builtin/credential/appgroup/path_group.go:504-522 | the reply is that of the TTL read, in seconds |
| AppGroup.GroupBackend.MaxTTLUpdate | builtin/credential/appgroup/path_group.go:524-546 | the reply and new table are those of the MaxTTL update, which refuses a MaxTTL below TTL with "max_ttl should be greater than ttl"; TTL ≤ MaxTTL is kept |
| AppGroup.GroupBackend.MaxTTLRead | builtin/credential/appgroup/path_group.go:548-566 | the reply is that of the MaxTTL read, in seconds |
| AppGroup.GroupBackend.WrappedUpdate | builtin/credential/appgroup/path_group.go:568-588 | the reply and new table are those of the wrapped update, which sets the group's wrapping duration; TTL ≤ MaxTTL is kept |
| AppGroup.GroupBackend.WrappedRead | builtin/credential/appgroup/path_group.go:590-608 | the reply is that of the wrapped read, in seconds |
| GoInt.Wrap64 | builtin/credential/appgroup/path_group.go:274 | the int64 result of Duration arithmetic: the exact value when it fits, and congruent to it modulo 2^64 otherwise |
| GoInt.FromSeconds | builtin/credential/appgroup/path_group.go:274 | s seconds times time.Second is exact whenever \|s\| ≤ 9223372036, and always congruent to the exact product modulo 2^64 |
| GoInt.ToSeconds | builtin/credential/appgroup/path_group.go:338-340 | dividing a Duration by time.Second truncates toward zero, for positive and negative durations |
| GoInt.SecondsRoundTrip | builtin/credential/appgroup/path_group.go:274 | s seconds stored as s * time.Second and divided back give s, whenever the product fits in an int64 |
| GoInt.SecondsOverflow | builtin/credential/appgroup/path_group.go:274 | 9223372037 seconds wrap to a negative Duration, which reads back as -9223372036 |
| GoStrings.ToLower | builtin/credential/appgroup/path_group.go:316 | lower-casing keeps the length and lower-cases each ASCII letter, leaving every other character |
| GoStrings.ToLowerIdempotent | builtin/credential/appgroup/path_group.go:332 | lower-casing twice (the handlers lower-case a name the loader lower-cases again) is lower-casing once |
| GoStrings.ToLowerEqual | builtin/credential/appgroup/path_group.go:301-316 | two names get the same storage key iff they are equal up to the case of their letters |
| GoStrings.Split | builtin/credential/appgroup/path_group.go:256 | splitting gives at least one part, and no part contains the separator |
| GoStrings.JoinSplit | builtin/credential/appgroup/path_group.go:256 | joining the parts of a split with the separator gives back the split string |
| GoStrings.SplitJoin | builtin/credential/appgroup/path_group.go:256 | splitting the join of separator-free parts gives back the parts |
| TransitDatakey.Mode | builtin/logical/transit/path_datakey.go:54-62 | only "plaintext" and "wrapped" are accepted, and only "plaintext" returns the plaintext key |
| TransitDatakey.DecodeContext | builtin/logical/transit/path_datakey.go:65-73 | an empty context gives no context; a non-empty context that is not base64 is the "failed to decode context as base64" error; any other is its decoding |
| TransitDatakey.KeyLength | builtin/logical/transit/path_datakey.go:85-95 | a key length is given iff the bit count is 128, 256 or 512, and it is the bit count divided by 8 |
| TransitDatakey.ReadFull | builtin/logical/transit/path_datakey.go:96-99 | a random read succeeds iff the source has enough bytes, and then yields its first bytes |
| TransitDatakey.ReadRandom | builtin/logical/transit/path_datakey.go:96 | the array is filled in place with the source's bytes as far as they reach, the rest untouched; the error is that of io.ReadFull |
| TransitDatakey.Issue | builtin/logical/transit/path_datakey.go:85-128 | the locked part answers only when the bit count is supported, the source has enough bytes and Encrypt succeeds; its data is the non-empty ciphertext Encrypt returned, plus the base64 key exactly when the plaintext is allowed |
| TransitDatakey.IssueEvents | builtin/logical/transit/path_datakey.go:85-101 | the locked part makes calls iff the bit count is supported: first the random read of bits/8 bytes, then at most the Encrypt call on the base64 of those bytes |
| TransitDatakey.Datakey | builtin/logical/transit/path_datakey.go:50-129 | the handler answers only for a valid variant, a decodable context and a found policy |
| TransitDatakey.DatakeyEvents | builtin/logical/transit/path_datakey.go:54-83 | the handler calls anything iff the variant and the context pass; the first call is the lookup; with a found policy the last is the unlock with the returned lock, otherwise the lookup is the only call |
| TransitDatakey.LookupFailures | builtin/logical/transit/path_datakey.go:76-82 | a lookup error is returned as is and a missing policy is "policy not found", with the lookup as the only call |
| TransitDatakey.UnderLock | builtin/logical/transit/path_datakey.go:85-128 | the part after the lookup: its outcome and its calls are those the specification functions give for the bit count, the random read, the Encrypt result and the variant |
| TransitDatakey.DatakeyWrite | builtin/logical/transit/path_datakey.go:50-129 | the outcome and the ghost trace of calls are exactly those of the specification functions, with the deferred unlock appended after the locked part |
| TransitDatakey.LockHeldAroundKeyWork | builtin/logical/transit/path_datakey.go:76-83 | any call at all starts with the lookup of the requested name, and there is no other lookup. Every random read and Encrypt call falls between a successful lookup and the unlock. The unlock uses the lock the lookup returned, and it is the last call exactly when the policy was found |
| TransitDatakey.ResponseShape | builtin/logical/transit/path_datakey.go:101-128 | a response needs a supported bit count, enough random bytes, a decoded context and a found policy. Its ciphertext is the non-empty result of the policy's Encrypt on that context and the base64 of the first bits/8 random bytes, and that Encrypt call is in the trace. It carries the plaintext iff the variant is "plaintext", and the plaintext is that same base64 key. There is no other field |
| TransitDatakey.ResponseExactlyWhenChecksPass | builtin/logical/transit/path_datakey.go:50-129 | a response is given iff the variant is valid, the context decodes, the policy is found, the bit count is supported, the random read is full and Encrypt returns a non-empty ciphertext |
| TransitDatakey.PlaintextIsTheKey | builtin/logical/transit/path_datakey.go:101-125 | with a round-tripping base64, the returned plaintext decodes to the random key of bits/8 bytes, and the returned ciphertext is what the found policy's Encrypt gave for the decoded context and exactly that plaintext, so the key returned is the key that was encrypted |
| TransitDatakey.EarlyRejections | builtin/logical/transit/path_datakey.go:54-73 | an unknown variant, and then an undecodable non-empty context, are invalid requests whatever follows |
| TransitDatakey.BadBitsReadNoRandom | builtin/logical/transit/path_datakey.go:85-95 | an unsupported bit count is an invalid request. The calls are then only the lookup and the unlock, with no random read |
| TransitDatakey.ShortReadPassesError | builtin/logical/transit/path_datakey.go:96-99 | when the source has fewer bytes than the key needs, the handler returns io.ReadFull's error as is; the calls are the lookup, the random read of bits/8 bytes and the unlock, with no Encrypt |
| TransitDatakey.EncryptErrorsMapped | builtin/logical/transit/path_datakey.go:101-115 | an Encrypt user error is an invalid request with its message, any other Encrypt error is an error, and an empty ciphertext is the "empty ciphertext returned" error |

## Left out

- JSON: the encoding of records in storage (`StorageEntryJSON`, `DecodeJSON`) is left out. Storage holds records directly, and a failure to encode or decode is one of the storage faults.
- `structs.New(group).Map()`: the response map is written out by hand under the struct tags.
- GoStrings.ToLower: lower-cases ASCII letters only. Go's `strings.ToLower` also lower-cases the other Unicode letters.
- GoStrings.ToLowerEqual: proves that two names share a storage key iff they differ only in ASCII case, because that is all `ToLower` models.
- `policyutil.ParsePolicies` is an uninterpreted function. Its body is not part of this model.
- Framework request parsing is left out: the framework's defaults, its parsing of duration strings into seconds, and its panic when `Get` names an undeclared field. A request is the map of supplied, typed fields.
- The app-group routes, the field schemas as registration data, and the help text are left out, except the field names the handlers read.
- The creds handlers `pathGroupCredsRead` and `pathGroupCredsSpecificUpdate` are left out: they only log and return nothing.
- `builtin/credential/appgroup/path_login.go` is left out: its handlers only log and return nothing.
- Concurrency: the storage is a single map, and no two handlers interleave.
- The lock manager's internals, the key policy (versions, rotation, key derivation, the cipher) and base64's internals are left out. They appear only through their results.
- `Encrypt` is taken as a function of its two arguments. A real cipher draws a fresh nonce, so two calls may differ.
- `crypto/rand` is a finite byte stream with a final error. Which bytes it yields is not modelled.
- AppGroup.UpdateThenReadSeconds: states the write-then-read only for durations up to 9223372036 seconds. Larger values wrap to a different int64 in Go (see GoInt.SecondsOverflow), so no round trip holds there.
- AppGroup.GroupBackend.CreateUpdate: the Go handler is one function. The model moves its merging steps into `ApplySupplied`, a separate method that changes nothing, with the steps unchanged and in the same order.

## Findings

| source | as written | input that shows it | evidently intended | confidence | as-written member | corrected member |
|---|---|---|---|---|---|---|
| builtin/credential/appgroup/path_group.go:265 | the create-or-update handler (line 265) and the use-count update (line 453) look the use count up as "num_uses", but the schema declares the field as "num-uses" (lines 46 and 126), so the lookup never succeeds | create group "web" with num-uses = 5: the record stores 0, and the use-count update always answers "missing num_uses" and writes nothing | look the count up under the declared name "num-uses", so the supplied count is stored | not executed | AppGroup.NumUsesNeverReadAsWritten | AppGroup.NumUsesUpdateStoresSupplied |
