# interaction-kit: select builder and snowflake decoder

This project models two pieces of the interaction-kit library for a chat
platform's interaction protocol. It proves properties of both in Dafny.

- **The `Select` component builder** (`components/select.ts`). It is a
  mutable object with the attributes of a select menu: custom ID, option list,
  placeholder, minimum and maximum number of selections, disabled flag and
  handler callback. It has fluent setters. Each setter overwrites one
  attribute and returns the object itself. `serialize()` projects the object
  to the platform's wire payload. The payload always has `type`, `custom_id`
  and `options`. It has `placeholder`, `min_values`, `max_values` and
  `disabled` only when the attribute is JavaScript-truthy.
- **The snowflake decoder** (`structures/snowflake.ts`). A snowflake is the
  platform's 64-bit time-ordered identifier. Four functions extract its fields
  with shifts and masks: the timestamp (bits 63..22 plus the platform epoch),
  the worker id (bits 21..17), the process id (bits 16..12) and the increment
  (bits 11..0).

Files:

- `wrappers.dfy`: `Option`. JavaScript's `undefined` is modelled as `None`.
- `bits.dfy`: BigInt's `>>` and `&` on non-negative integers, defined bit by
  bit (`ShiftRight`, `BitAnd`). Lemmas tie them to division and remainder by
  powers of two, and describe masking with a contiguous field of ones.
- `snowflake.dfy`: the four decoders, the layout as a reference function
  `Compose`, and the round trips in both directions.
- `select.dfy`: the `Select` class, its payload datatype `Component`, and the
  truthiness rules.

Rules made explicit in the model:

- A payload key that is absent is `None`.
- A placeholder is truthy when it is set and not the empty string.
- A count is truthy when it is set and not 0.
- The disabled flag is truthy only when it is `true`.

So `min = 0`, `max = 0`, `placeholder = ""` and `disabled = false` serialize
exactly like unset attributes. `SerializeSeesOnlyTruthyAttributes` states
this as an if-and-only-if over two builders.

## Model

| member | source | states |
|---|---|---|
| `Components.Select.constructor` | packages/interaction-kit/src/components/select.ts:35-47 | every attribute equals the matching field of the argument, and `id` returns the custom ID passed in |
| `Components.Select.Id` | packages/interaction-kit/src/components/select.ts:45-47 | the `id` getter returns the custom ID held in the builder's current state |
| `Components.Select.Type` | packages/interaction-kit/src/components/select.ts:49-51 | the `type` getter is SELECT; it reads no attribute, so this holds in every state |
| `Components.Select.SetCustomID` | packages/interaction-kit/src/components/select.ts:53-56 | returns the same instance; the new state is the old one with only the custom ID replaced; afterwards `id` is the new custom ID |
| `Components.Select.SetPlaceholder` | packages/interaction-kit/src/components/select.ts:58-61 | returns the same instance; only the placeholder changes |
| `Components.Select.SetMin` | packages/interaction-kit/src/components/select.ts:63-66 | returns the same instance; only the minimum changes |
| `Components.Select.SetMax` | packages/interaction-kit/src/components/select.ts:68-71 | returns the same instance; only the maximum changes |
| `Components.Select.SetDisabled` | packages/interaction-kit/src/components/select.ts:73-76 | returns the same instance; only the disabled flag changes |
| `Components.Select.SetHandler` | packages/interaction-kit/src/components/select.ts:78-81 | returns the same instance; only the handler changes |
| `Components.TruthyText` | packages/interaction-kit/src/components/select.ts:90-92 | the test `if (this.#placeholder)`: a placeholder is falsy exactly when it is `undefined` or the empty string |
| `Components.TruthyCount` | packages/interaction-kit/src/components/select.ts:94-100 | the tests `if (this.#min)` and `if (this.#max)`: a count is falsy exactly when it is `undefined` or 0 |
| `Components.TruthyFlag` | packages/interaction-kit/src/components/select.ts:102-104 | the test `if (this.#disabled)`: the flag is falsy exactly when it is `undefined` or `false` |
| `Components.Select.Serialize` | packages/interaction-kit/src/components/select.ts:83-107 | reads the builder without changing it; `type` is always SELECT, `custom_id` is the current custom ID, `options` is the serialized option list; `placeholder` is present iff the placeholder is set and non-empty, `min_values`/`max_values` iff set and non-zero, `disabled` iff it is `true`; a present key equals the attribute |
| `Components.GettersAgreeWithPayload` | packages/interaction-kit/src/components/select.ts:45-51 | the `id` getter equals the payload's `custom_id` and the `type` getter equals the payload's `type`, whatever the state |
| `Components.SerializeSeesOnlyTruthyAttributes` | packages/interaction-kit/src/components/select.ts:90-104 | two builders give equal payloads iff they agree on custom ID and serialized options, and each optional attribute is falsy in both or equal in both; falsy values are indistinguishable from unset ones, and the handler is never observable |
| `Components.FluentConfiguration` | packages/interaction-kit/src/components/select.ts:53-107 | a chain of all six setters acts on one instance; after the setters put min 0, an empty placeholder and `disabled = false` over non-falsy constructor values, the payload carries only `type`, `custom_id`, `options` and `max_values` |
| `Bits.ShiftRight` | packages/interaction-kit/src/structures/snowflake.ts:10-18 | BigInt `a >> n` on a non-negative a, bit by bit; the result never exceeds a, and is at most `a / 2` when n > 0 (the exact value is `Bits.ShiftRightIsDiv`) |
| `Bits.BitAnd` | packages/interaction-kit/src/structures/snowflake.ts:14-22 | BigInt `a & b` on non-negative operands, bit by bit; the result is at most each operand |
| `Bits.ShiftRightIsDiv` | packages/interaction-kit/src/structures/snowflake.ts:9-19 | `a >> n` equals `a / 2^n` for every non-negative a |
| `Bits.LowMask` | packages/interaction-kit/src/structures/snowflake.ts:21-23 | masking with the k lowest bits keeps `a mod 2^k` |
| `Bits.MaskedField` | packages/interaction-kit/src/structures/snowflake.ts:13-19 | masking with the k bits at position s keeps `((a >> s) mod 2^k) * 2^s` |
| `Bits.ExtractField` | packages/interaction-kit/src/structures/snowflake.ts:13-19 | mask-then-shift of the field at bit s with width k gives `(a / 2^s) mod 2^k` |
| `Snowflake.Timestamp` | packages/interaction-kit/src/structures/snowflake.ts:9-11 | the timestamp is `id / 2^22 + EPOCH`; it lies in `[EPOCH, EPOCH + 2^42)` |
| `Snowflake.TimestampIsSafeInteger` | packages/interaction-kit/src/structures/snowflake.ts:9-11 | for an epoch between 0 and `2^53 - 2^42` the timestamp is below 2^53, so `Number(...)` converts it without rounding |
| `Snowflake.WorkerId` | packages/interaction-kit/src/structures/snowflake.ts:13-15 | the worker id is `(id / 2^17) mod 32`, so it lies in 0..31 |
| `Snowflake.ProcessId` | packages/interaction-kit/src/structures/snowflake.ts:17-19 | the process id is `(id / 2^12) mod 32`, so it lies in 0..31 |
| `Snowflake.Increment` | packages/interaction-kit/src/structures/snowflake.ts:21-23 | the increment is `id mod 4096`, so it lies in 0..4095 |
| `Snowflake.TimestampMonotone` | packages/interaction-kit/src/structures/snowflake.ts:9-11 | a larger snowflake never decodes to an earlier timestamp |
| `Snowflake.Compose` | packages/interaction-kit/src/structures/snowflake.ts:4-23 | the layout as a reference: for in-range fields, the result's bits 63..22 hold `ms - EPOCH` and bits 21..0 hold `worker * 2^17 + process * 2^12 + increment` |
| `Snowflake.DecodeCompose` | packages/interaction-kit/src/structures/snowflake.ts:4-23 | for fields within the layout's widths, the four decoders give back each field of the composed snowflake |
| `Snowflake.ComposeDecode` | packages/interaction-kit/src/structures/snowflake.ts:4-23 | every 64-bit snowflake equals `(timestamp - EPOCH) * 2^22 + worker * 2^17 + process * 2^12 + increment` of its decoded fields |
| `Snowflake.MasksPartitionLowBits` | packages/interaction-kit/src/structures/snowflake.ts:13-23 | the masks `0x3E0000`, `0x1F000` and `0xFFF` are pairwise disjoint and together cover bits 21..0 |
| `Snowflake.MaskedRecompose` | packages/interaction-kit/src/structures/snowflake.ts:9-23 | every snowflake is `(id >> 22) * 2^22` plus its three masked parts |
| `Snowflake.DocumentedExample` | packages/interaction-kit/src/structures/snowflake.ts:4-23 | the platform documentation's example `175928847299117063` decodes to `id >> 22 = 41944705796`, worker 1, process 0 and increment 7 |

## Left out

- The option list's own serializer (`SelectOptionList.serialize()` in `components/choices`) is not part of this model. It is the parameter `serializeOptions` of `Serialize`, and the option list is an opaque type parameter.
- The handler (`SelectInteraction`, `Application`) is an opaque type parameter. The model stores it and never invokes it.
- The `ComponentType` enum and `EPOCH` come from the `definitions` module, which is not part of this model. `ComponentType` is a small datatype without the platform's numeric codes. `EPOCH` is the parameter `epoch` of `Timestamp`, so no value is assumed.
- The attributes that `SelectArgs` inherits from the platform's component type are left out (label, style, emoji and the like). The class never reads them.
- The minimum and maximum are JavaScript numbers. They are modelled as integers, so `NaN` and fractional values are not covered. `NaN` would be falsy and dropped like 0.
- The TypeScript `#` private fields are plain Dafny fields. Field privacy has no effect on behaviour.
- `BigInt(snowflake)`, which parses the decimal string and throws on malformed input, is left out. So are `Number(...)` and `new Date(...)`. The decoders take the parsed integer and return the timestamp in integer milliseconds.
- Snowflakes are limited to values below 2^64. BigInt would also accept larger or negative values.
- The component registry, dispatcher, event-correlation object and reply/update/defer transport are not part of this model. The same goes for any concurrency discipline. None of them appear in the modelled files.
- `definitions/application-commands.ts` is not modelled. It holds only type declarations. `starter-commands/invite.js` is not modelled either. It is example glue around transport calls.
