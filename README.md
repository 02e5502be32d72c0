# authkit: a Dafny model of the Linux-PAM application wrapper

This project models the core of `authkit`, a Rust wrapper that lets an application
drive a Linux-PAM transaction. It covers these parts of the wrapper:

- **Code translation** between Linux-PAM's integers and typed values:
  - `c_enum!` numbering
  - the `ErrorCode` enumeration with its `SystemError` fallback
  - `ErrorCode::result_from` and `ReturnCode::from(Result)`
  - the bit-set flag types (`pam_flags!`: `AuthnFlags`, `AuthtokFlags`, `BaseFlags`)
  - the closed action enumerations (`CredAction`, `AuthtokAction`)
  - the `num_enum!` types (`Style`, `ItemType`)
  - `pam_modutil_redirect_fd`
- **Byte helpers:**
  - C strings on the C heap (`CHeapString::new`, its secure `zero` and drop)
  - `copy_pam_string`, `option_cstr`, `prompt_ptr`
  - the length-prefixed binary payload (`BinaryPayload::fill`, `OwnedBinaryPayload::new`)
- **The conversation protocol:**
  - native messages decoded to typed exchanges, and encoded back
  - the one-slot answer cell of every exchange
  - `Demux` dispatching a batch to a `ConversationAdapter`, with the adapter's default methods
  - the blanket adapter over any `Conversation`
  - the native callback `wrapper_callback`
- **The answer array:** `Answers::build` filling the `pam_response` array record by record, with `into_ptr` and its drop.
- **The transaction handle `Pam`:**
  - `PamBuilder` and `start`
  - the six lifecycle calls, each caching its outcome in `last_return`
  - `end`, `end_silent`, the drop of `Pam`, and `username`
- **The environment and the items of a handle:**
  - `get`, `insert`, `remove`
  - the `NAME=value` split
  - the cursor over `pam_getenvlist`'s list and its drop
  - `get_cstr_item` / `set_cstr_item`
  - the getters and setters the two item views expose
- **The older four-variant conversation module:** the fixed-credential `PamConversation`, its callback and its answer array.
- **The command line's tty number:** `validate_tty_number` and its default.

How the model represents the native side:

- Memory behind a pointer is a byte sequence, or an `array` where the source writes it in place. A null pointer is `None`.
- A Rust panic (an interior nul, a failed `expect`) is a precondition.
- Linux-PAM itself is not code here. What it returns (a return code, a pointer, a handle) is a parameter of the method that calls it.
- The handle (`Native.PamHandle`) records every call made on it, with its arguments, in `calls`. So "the wrapper passes X to Linux-PAM" is a statement about that trace.
- The handle's environment and string items are maps. They change by Linux-PAM's documented rules: `pam_putenv("NAME=value")` sets `NAME` and `pam_putenv("NAME")` deletes it. `pam_set_item` keeps a copy of the item on success. `environ_set` ignores the code `pam_putenv` returns, so the model takes that code as a parameter and changes the environment only when it is `PAM_SUCCESS`.

Modules, one per source file:

| module | file |
|---|---|
| `Wrappers` | `wrappers.dfy` |
| `Constants` | `constants.dfy` |
| `Flags` | `flags.dfy` |
| `Helper` | `helper.dfy` |
| `Exchanges` | `exchange.dfy` |
| `Questions` | `question.dfy` |
| `AnswerArray` | `answer.dfy` |
| `Conversations` | `conversation.dfy` |
| `Native` | `native.dfy` |
| `Environ` | `env.dfy` |
| `Items` | `items.dfy` |
| `Handle` | `handle.dfy` |
| `Legacy` | `legacy.dfy` |
| `TtyNumber` | `tty_number.dfy` |

The older module's exchanges (`Legacy.LegacyExchange`) are the four text and notification variants of `OwnedExchange`. Its answer array is the current one without the binary arm. So it reuses `AnswerArray.Build`, `TextFill`, `Answers.IntoPtr` and `Answers.Drop`, whose contracts cover both `authkit/src/conversation/answer.rs` and `authkit/src/pam/conversation/answer.rs`. The older module's `BinaryData` and its two conversions (`authkit/src/pam/conversation.rs:169-195`) are the same as the current ones, so `Exchanges.BinaryDataFrom`, `Exchanges.BinaryDataInto` and `Exchanges.BinaryDataRoundTrip` cover both.

## Model

| member | source | states |
|---|---|---|
| Constants.CEnum | authkit/src/pam/constants.rs:23-40 | `c_enum!` gives `count` names the consecutive values `first`, `first+1`, … |
| Constants.ItemNumbering | authkit/src/pam/constants.rs:42-52 | the nine item types are numbered 1 to 9 in declaration order |
| Constants.StyleNumbering | authkit/src/pam/constants.rs:54-59 | the four message styles are numbered 1 to 4 |
| Constants.FailDelayNumbering | authkit/src/pam/constants.rs:112-117 | `PAM_FAIL_DELAY` to `PAM_AUTHTOK_TYPE` are 10 to 13 |
| Constants.ReturnCodeNumbering | authkit/src/pam/constants.rs:63-96 | the return codes run consecutively from `PAM_OPEN_ERR` = 1 up to the end marker |
| Constants.RedirectFdValue | authkit/src/pam/constants.rs:128-140 | every redirect target has a discriminant in 0..2 |
| Constants.RedirectFdFrom | authkit/src/pam/constants.rs:142-150 | accepts exactly 0..=2, giving back the variant of that discriminant; any other value is returned unchanged as the error |
| Constants.ReturnCodeOf | authkit/src/pam/constants.rs:368-400 | every error kind has a native code in 1..27 |
| Constants.ErrorCodeFrom | authkit/src/pam/constants.rs:342-364 | a code converts to a kind iff it is in 1..27, and that kind converts back to the code; anything else is `BAD_CONST` |
| Constants.ErrorCodeRoundTrip | authkit/src/pam/constants.rs:342-400 | every kind's code is nonzero and converts back to the same kind |
| Constants.ResultFrom | authkit/src/pam/constants.rs:421-429 | 0 is `Ok`; a code in 1..27 is the error of that code; any other nonzero code is `SystemError` |
| Constants.ReturnCodeOfResult | authkit/src/pam/constants.rs:432-439 | `Ok` is 0; an error is its kind's code, nonzero and in 1..27, and converts back to the kind |
| Constants.ResultRoundTrip | authkit/src/pam/constants.rs:421-439 | an outcome turned into its code and back through `result_from` is unchanged |
| Flags.FlagTablesWellFormed | authkit/src/pam/constants.rs:242-260 | each of the three tables gives every flag one bit on each side, with no bit shared; their native masks are the expected `PAM_*` bits |
| Flags.ToRawWithinMask | authkit/src/pam/constants.rs:224-238 | flags to raw only ever sets native bits of named flags |
| Flags.FromRawWithinMask | authkit/src/pam/constants.rs:207-222 | raw to flags only ever sets bits of named flags |
| Flags.ToRawIgnoresUnnamed | authkit/src/pam/constants.rs:224-238 | flags to raw looks only at the bits of named flags |
| Flags.FromRawIgnoresUnnamed | authkit/src/pam/constants.rs:207-222 | raw to flags looks only at the native bits of named flags |
| Flags.NamedFlagsRoundTrip | authkit/src/pam/constants.rs:207-238 | flags to raw and back keeps exactly the named bits of any `u16` |
| Flags.FlagsRoundTrip | authkit/src/pam/constants.rs:207-238 | for a well-formed table, every set of named flags survives flags to raw and back |
| Flags.RawRoundTrip | authkit/src/pam/constants.rs:207-238 | raw to flags and back keeps exactly the native bits of named flags and drops all others |
| Flags.EmptyFlags | authkit/src/pam/constants.rs:207-238 | raw 0 is the empty set, and the empty set is raw 0 |
| Flags.CredActionRaw | authkit/src/pam/constants.rs:305-314 | each credential action is one native bit, one of the four `PAM_*_CRED` values (`Establish`, the default, is `PAM_ESTABLISH_CRED`) |
| Flags.CredActionFrom | authkit/src/pam/constants.rs:281-301 | accepts exactly the four action values (no combination), each converting back to its value; anything else is `BAD_CONST` |
| Flags.AuthtokActionRaw | authkit/src/pam/constants.rs:316-321 | each token action is one native bit, `PAM_PRELIM_CHECK` or `PAM_UPDATE_AUTHTOK` |
| Flags.AuthtokActionFrom | authkit/src/pam/constants.rs:281-301 | accepts exactly `PAM_PRELIM_CHECK` and `PAM_UPDATE_AUTHTOK`; anything else is `BAD_CONST` |
| Flags.ActionsRoundTrip | authkit/src/pam/constants.rs:281-321 | every action converts to its raw value and back to itself |
| Helper.CStrLen | authkit/src/helper.rs:313-322 | the length of a C string: every byte before it is nonzero, and the byte at it is the nul |
| Helper.CStr | authkit/src/helper.rs:304-311 | the C-string view is a nul-free prefix ending just before the first nul; a text without nul is its own view |
| Helper.CStrOfTerminated | authkit/src/helper.rs:268-281 | a nul-free text followed by a nul reads back as that text, whatever comes after |
| Helper.NewCHeapString | authkit/src/helper.rs:268-281 | a fresh buffer of `len+1` bytes holding the text and one nul; its C-string view is the text |
| Helper.Zero | authkit/src/helper.rs:287-302 | every byte before the first nul becomes 0, later bytes are untouched, and the string then reads as empty |
| Helper.CopyPamString | authkit/src/helper.rs:313-322 | null stays `None`; otherwise the nul-free prefix up to the first nul |
| Helper.OptionCStr | authkit/src/helper.rs:177-183 | `None` stays `None`; a text becomes itself plus one nul, whose view is the text |
| Helper.PromptPtr | authkit/src/helper.rs:185-190 | null exactly for `None`, otherwise the C string itself |
| Helper.PromptRoundTrip | authkit/src/helper.rs:177-190 | a prompt sent through `option_cstr` and `prompt_ptr` reads back unchanged with `copy_pam_string` |
| Helper.BigEndian32 | authkit/src/helper.rs:81-88 | `to_be_bytes` of a `u32` is four bytes |
| Helper.FromBigEndian32 | authkit/src/helper.rs:81-88 | four bytes read back a value within `u32` |
| Helper.BigEndianRoundTrip | authkit/src/helper.rs:81-88 | reading the four big-endian bytes of a `u32` gives it back |
| Helper.Payload | authkit/src/helper.rs:81-88 | the payload is five bytes longer than the data |
| Helper.DecodePayload | authkit/src/helper.rs:81-88 | a payload only decodes when its header states its own length |
| Helper.PayloadRoundTrip | authkit/src/helper.rs:81-108 | a payload decodes to the data and type byte it was made from |
| Helper.Allocate | authkit/src/helper.rs:61-65 | a fresh buffer of `n` zero bytes |
| Helper.Fill | authkit/src/helper.rs:81-88 | the buffer becomes its length cut to 32 bits, big-endian, then the type byte, then the data |
| Helper.NewPayload | authkit/src/helper.rs:94-109 | fails with `TooBigError(len, u32::MAX-5)` exactly when `len+5` exceeds `u32::MAX`; otherwise the payload of the data |
| Questions.StyleValue | authkit/src/conversation/question.rs:12-19 | every style is numbered 1..4 |
| Questions.StyleFrom | authkit/src/helper.rs:116-159 | a `num_enum!` accepts exactly the listed values, each converting back to itself; anything else is `BAD_CONST` |
| Questions.StyleRoundTrip | authkit/src/helper.rs:138-157 | every style survives the trip through its number |
| Questions.StringData | authkit/src/conversation/question.rs:28-38 | null data is empty text; otherwise the nul-free prefix of the data up to its first nul |
| Questions.Decode | authkit/src/conversation/question.rs:87-107 | styles 1, 2, 3, 4 become a masked prompt, a prompt, an error, an info message carrying the data's text with an unanswered cell; every other style is `ConversationError` |
| Questions.DecodeAll | authkit/src/conversation.rs:244-251 | a batch decodes iff every question does, element by element; one failure fails the batch with `ConversationError` |
| Questions.Encode | authkit/src/conversation/question.rs:40-66 | the four text variants become styles 1..4 with a nul-terminated copy of the text; radio and binary prompts are `ConversationError` before any allocation, whatever their text holds |
| Questions.EncodeDecodeRoundTrip | authkit/src/conversation/question.rs:40-107 | encoding a text exchange and decoding it gives the same variant and text back |
| Questions.DecodeEncodeRoundTrip | authkit/src/conversation/question.rs:40-107 | decoding a record and encoding it gives its style back with its text as a C string |
| Questions.DropQuestion | authkit/src/conversation/question.rs:68-85 | a recognised style's text is zeroed up to its nul, so it reads as empty, and the bytes after it are kept; an unrecognised style's data is untouched; the free itself is not modelled |
| Exchanges.BinaryDataFrom | authkit/src/conversation.rs:97-104 | `(data, type)` becomes the binary data with those fields |
| Exchanges.BinaryDataInto | authkit/src/conversation.rs:106-110 | binary data becomes its `(data, type)` pair |
| Exchanges.BinaryDataRoundTrip | authkit/src/conversation.rs:90-116 | the two conversions are inverse to each other, both ways |
| Exchanges.KindOf | authkit/src/conversation.rs:262-270 | text cells belong exactly to the three prompt kinds, unit cells exactly to the two notification kinds |
| Exchanges.SetText | authkit/src/conversation.rs:55-57 | `set_answer` puts the answer in the cell and keeps the message |
| Exchanges.SetDone | authkit/src/conversation.rs:55-57 | the same for a notification's cell |
| Exchanges.SetBinary | authkit/src/conversation.rs:55-57 | the same for a binary prompt's cell |
| Exchanges.LastWriteWins | authkit/src/conversation.rs:55-61 | after two writes, `answer()` returns the last one written |
| Exchanges.RadioPromptOf | authkit/src/conversation.rs:138-141 | the default `radio_prompt` is `ConversationError`; a provided one is the adapter's answer |
| Exchanges.BinaryPromptOf | authkit/src/conversation.rs:142-145 | the default `binary_prompt` is `ConversationError`; a provided one is the adapter's answer |
| Exchanges.ApplyReply | authkit/src/conversation.rs:55-57 | a write of the cell's own type replaces its answer; nothing else changes the exchange |
| Conversations.DemuxOne | authkit/src/conversation.rs:186-211 | each variant is answered by its own adapter method on its question; notifications store `Ok(())` |
| Conversations.CallFor | authkit/src/conversation.rs:186-211 | the adapter call for a message carries that message's question |
| Conversations.Communicated | authkit/src/conversation.rs:122-124 | `communicate` keeps every message in its place with its question; only cells change |
| Conversations.Communicate | authkit/src/conversation.rs:186-211 | the batch array becomes the communicated batch; `Demux` makes one adapter call per message, in array order, each matching its message |
| Conversations.AskOne | authkit/src/conversation.rs:154-182 | a one-message batch; the message afterwards is what the conversation made of it |
| Conversations.BlanketPrompt | authkit/src/conversation.rs:154-175 | through `Demux` the adapter's own `prompt`; otherwise whatever was written to the cell, or `ConversationError` |
| Conversations.BlanketMaskedPrompt | authkit/src/conversation.rs:154-175 | the same for `masked_prompt` |
| Conversations.BlanketRadioPrompt | authkit/src/conversation.rs:154-175 | the same for `radio_prompt` |
| Conversations.BlanketBinaryPrompt | authkit/src/conversation.rs:177-181 | the same for `binary_prompt` |
| Conversations.BlanketInfoMsg | authkit/src/conversation.rs:154-175 | a one-message batch: through `Demux` exactly one `info_msg` call |
| Conversations.BlanketErrorMsg | authkit/src/conversation.rs:154-175 | a one-message batch: through `Demux` exactly one `error_msg` call |
| Conversations.DispatchedBatch | authkit/src/conversation.rs:236-251 | a batch is dispatched iff both pointers are there and every question decodes; the batch is the decoded questions, in order |
| Conversations.CallbackOutcome | authkit/src/conversation.rs:236-257 | an undispatched batch is `ConversationError` |
| Conversations.WrapperCallback | authkit/src/conversation.rs:229-259 | returns the outcome's code (0 on success); the adapter is called only for a dispatched batch, once per message in order; the out-pointer receives a fresh array of the built records only on success, and is untouched otherwise |
| Conversations.NullPointersRejected | authkit/src/conversation.rs:236-257 | a null conversation or out-pointer returns `PAM_CONV_ERR` with nothing dispatched |
| Conversations.UndecodableBatchRejected | authkit/src/conversation.rs:244-251 | one undecodable question returns `PAM_CONV_ERR` and the conversation never sees the batch |
| Conversations.DemuxCallbackAnswers | authkit/src/conversation.rs:186-259 | through `Demux`, the i-th response is the adapter's answer to the i-th question as a C string (empty for a notification), with return code 0 |
| Conversations.DemuxCallbackRefusal | authkit/src/conversation.rs:186-259 | through `Demux`, a refused prompt after answered messages fails the whole callback with that refusal |
| AnswerArray.RecordFor | authkit/src/conversation/answer.rs:19-43 | an exchange gives a record iff its cell holds `Ok`: a text becomes a C string of it, a notification an empty C string, a binary answer its payload (`BufferError` if too big); otherwise the cell's error |
| AnswerArray.TextRecord | authkit/src/conversation/answer.rs:78-86 | an `Ok` text gives the record of the nul-terminated text; an error stays that error |
| AnswerArray.BuildSpec | authkit/src/conversation/answer.rs:19-43 | `Ok` iff every exchange gives a record, then exactly one record per exchange, in order |
| AnswerArray.BuildSpecStops | authkit/src/conversation/answer.rs:19-43 | the first exchange in order that gives no record decides the outcome: its error |
| AnswerArray.BuildSpecAll | authkit/src/conversation/answer.rs:19-43 | when every exchange gives its record, the outcome is exactly those records |
| AnswerArray.NoPanicAt | authkit/src/conversation/answer.rs:19-43 | before the first failing exchange no fill panics |
| AnswerArray.ReturnCodesStayZero | authkit/src/conversation/answer.rs:19-43 | every record built has return code 0 |
| AnswerArray.Answers.constructor | authkit/src/conversation/answer.rs:19-21 | `calloc`: a fresh array of zeroed records |
| AnswerArray.Answers.IntoPtr | authkit/src/conversation/answer.rs:45-47 | hands out the same array and contents, releasing nothing |
| AnswerArray.Answers.Drop | authkit/src/conversation/answer.rs:54-63 | every record's data is released, then the array |
| AnswerArray.TextFill | authkit/src/conversation/answer.rs:78-86 | only record `i` changes; its data becomes a fresh C string of the text |
| AnswerArray.BinaryFill | authkit/src/conversation/answer.rs:92-101 | `BufferError` exactly for data over the size limit, with nothing written; otherwise only record `i` changes, to the payload |
| AnswerArray.FillOne | authkit/src/conversation/answer.rs:26-39 | writes record `i` exactly when the exchange gives a record, else fails with its error and writes nothing |
| AnswerArray.Build | authkit/src/conversation/answer.rs:19-43 | `Ok` iff the specification is `Ok`, with the fresh unreleased array holding exactly its records; otherwise its error, and the array it allocated is released with every record's data freed |
| Legacy.Answered | authkit/src/pam/conversation.rs:33-43 | a prompt gets the user name, a masked prompt the password, whatever their text; a notification gets `Ok(())` |
| Legacy.AnsweredAll | authkit/src/pam/conversation.rs:45-62 | every message of the batch is answered in its own place |
| Legacy.Communicate | authkit/src/pam/conversation.rs:45-62 | the batch array becomes the answered batch, message by message |
| Legacy.DecodedIsLegacy | authkit/src/pam/conversation.rs:202-219 | decoding only ever yields the four older variants |
| Legacy.DecodeBatch | authkit/src/pam/conversation.rs:87-98 | a batch decodes iff every question does, element by element |
| Legacy.LegacyOutcome | authkit/src/pam/conversation.rs:80-111 | a null conversation, a null out-pointer or an undecodable question is `ConversationError` |
| Legacy.LegacyCallback | authkit/src/pam/conversation.rs:80-111 | returns the outcome's code; the out-pointer receives the built array only on success and is untouched otherwise |
| Legacy.AnsweredNeverPanics | authkit/src/pam/conversation/answer.rs:17-37 | answers without a nul never make `build` panic |
| Legacy.LegacyCallbackAnswers | authkit/src/pam/conversation.rs:80-111 | end to end: the i-th response is the user name, the password or an empty C string by style, with return code 0 |
| Native.PamHandle.constructor | authkit/src/handle.rs:56-84 | the handle `start` creates has made no call yet and holds the environment and items Linux-PAM gave it |
| Environ.FirstEq | authkit/src/pam/env.rs:121-130 | the index of the first `=`, or the length |
| Environ.AsKv | authkit/src/pam/env.rs:121-130 | splits at the first `=` only: a key without `=` and the rest; no `=` gives the whole text and an empty value |
| Environ.AsKvRoundTrip | authkit/src/pam/env.rs:121-161 | `key=value` splits back into the key and value for a key without `=` |
| Environ.PutenvEffect | authkit/src/pam/env.rs:145-161 | `NAME=value` sets `NAME` to the value; a bare `NAME` deletes it |
| Environ.EnvLookup | authkit/src/pam/env.rs:132-143 | `None` for a key with a nul or an unset variable; otherwise the variable's C string |
| Environ.EnvGet | authkit/src/pam/env.rs:132-143 | a key with a nul makes no call; otherwise exactly one `pam_getenv` of the key as a C string; returns the lookup |
| Environ.PutenvText | authkit/src/pam/env.rs:145-161 | `key=value` to set, `key` alone to remove |
| Environ.EnvSet | authkit/src/pam/env.rs:145-161 | returns what `get` gave before, whatever `pam_putenv` returns; removing an absent variable makes no `pam_putenv` call and changes nothing (only the `pam_getenv` of `get`); otherwise one `pam_putenv` of the text, which changes the environment by Linux-PAM's rule only when it succeeds |
| Environ.GetAfterInsert | authkit/src/pam/env.rs:145-161 | after inserting, `get` gives the inserted value |
| Environ.GetAfterRemove | authkit/src/pam/env.rs:145-161 | after removing, `get` gives `None` |
| Environ.EndOfList | authkit/src/pam/env.rs:84-101 | the index of the first null entry: every entry before it is set |
| Environ.PairsFrom | authkit/src/pam/env.rs:84-101 | one pair per entry up to the first null, in array order |
| Environ.EnvList.constructor | authkit/src/pam/env.rs:57-82 | a cursor at the start of the list; a null list is the list holding only the null |
| Environ.EnvList.Next | authkit/src/pam/env.rs:84-101 | yields the next pair and releases its entry; `None` at the null, with nothing released |
| Environ.EnvList.Drop | authkit/src/pam/env.rs:103-113 | afterwards every entry before the null has been released exactly once, in order, and the list storage is freed |
| Environ.EnvIter | authkit/src/pam/env.rs:163-169 | one `pam_getenvlist` call; the pairs to come are the list's, or none for a null list |
| Items.ItemTypeValue | authkit/src/pam/items.rs:11-24 | every item type is numbered 1..9 |
| Items.ItemTypeFrom | authkit/src/pam/items.rs:11-24 | accepts exactly 1..9, converting back to the number; anything else is `BAD_CONST` |
| Items.ItemTypeRoundTrip | authkit/src/pam/items.rs:11-24 | every item type survives the trip through its number |
| Items.GetCStrItem | authkit/src/pam/items.rs:71-78 | one `pam_get_item` call; a nonzero code is its error; on success null is `Ok(None)` and an item a copy of its C string |
| Items.SetCStrItem | authkit/src/pam/items.rs:80-94 | one `pam_set_item` call with null or a C string of the text; returns `result_from` of the code; the item is stored only on success |
| Items.SetThenGet | authkit/src/pam/items.rs:71-94 | setting an item and reading it back gives the text that was set, or no item |
| Items.SetKeepsOthers | authkit/src/pam/items.rs:80-94 | setting one item leaves every other one as it was |
| Items.ViewsHideSecrets | authkit/src/pam/items.rs:42-69 | the tokens can be set but never read; the conversation item is neither; every readable item is settable |
| Items.ViewGet | authkit/src/pam/items.rs:42-58 | a view getter is `get_cstr_item` on one of the six readable items |
| Items.ViewSet | authkit/src/pam/items.rs:60-69 | a view setter is `set_cstr_item` on one of the eight settable items |
| Handle.NewBuilder | authkit/src/handle.rs:38-43 | the builder has the service name and no user name |
| Handle.WithUsername | authkit/src/handle.rs:45-48 | sets the user name and keeps the service name |
| Handle.Split | authkit/src/handle.rs:93-95 | the outcome without its value: same success, same error |
| Handle.EndStatusRoundTrip | authkit/src/handle.rs:152-155 | the status `end` passes reads back as the outcome it was given, and is 0 exactly for success |
| Handle.SmallCodeAsBits | authkit/src/handle.rs:152-155 | a native code keeps its value in the status word |
| Handle.SilentStatusKeepsCode | authkit/src/handle.rs:157-163 | the silent status carries `PAM_DATA_SILENT` on top of the untouched outcome code |
| Handle.Pam.constructor | authkit/src/handle.rs:76-82 | a new transaction's last outcome is success |
| Handle.Pam.Run | authkit/src/handle.rs:98-150 | records the call; returns `result_from` of the code and caches it in `last_return` |
| Handle.Pam.Authenticate | authkit/src/handle.rs:98-105 | one `pam_authenticate` with the flags' raw value; returns and caches `result_from` of the code |
| Handle.Pam.AccountManagement | authkit/src/handle.rs:107-114 | one `pam_acct_mgmt` with the flags' raw value; returns and caches the outcome |
| Handle.Pam.ChangeAuthtok | authkit/src/handle.rs:116-123 | one `pam_chauthtok` with the flags' raw value; returns and caches the outcome |
| Handle.Pam.OpenSession | authkit/src/handle.rs:125-132 | one `pam_open_session` with the flags' raw value; returns and caches the outcome |
| Handle.Pam.CloseSession | authkit/src/handle.rs:134-141 | one `pam_close_session` with the flags' raw value; returns and caches the outcome |
| Handle.Pam.Setcred | authkit/src/handle.rs:143-150 | one `pam_setcred` with the action's raw value; returns and caches the outcome |
| Handle.Pam.End | authkit/src/handle.rs:152-155 | one `pam_end` with the outcome's code |
| Handle.Pam.EndSilent | authkit/src/handle.rs:157-163 | one `pam_end` with the outcome's code and `PAM_DATA_SILENT` |
| Handle.Pam.Drop | authkit/src/handle.rs:87-91 | one `pam_end` with 0, whatever `last_return` holds |
| Handle.Pam.EndOnce | authkit/src/handle.rs:152-155 | corrected `end`: `pam_end` only on a transaction not yet ended, which is then ended |
| Handle.Pam.DropOnce | authkit/src/handle.rs:87-91 | corrected drop: `pam_end` with the cached last outcome, only if not yet ended |
| Handle.Pam.Username | authkit/src/handle.rs:165-177 | one `pam_get_user` with the prompt or null, environment untouched; a native error is returned; success with null is `ConversationError`; otherwise the name's C string |
| Handle.Start | authkit/src/handle.rs:56-84 | `pam_start` gets the names as C strings (null for no user); a nonzero code is its error; a null handle is `BufferError`; otherwise a fresh transaction on a fresh handle with no calls yet, whose last outcome is success |
| Handle.Build | authkit/src/handle.rs:50-52 | `start` with the builder's service and user names, with the same outcomes |
| Handle.EndThenDrop | authkit/src/handle.rs:87-155 | `end` then drop makes two `pam_end` calls, the second with 0 |
| Handle.EndOnceThenDropOnce | authkit/src/handle.rs:87-155 | corrected: exactly one `pam_end`, with the outcome given to `end` |
| Handle.FailThenDropOnce | authkit/src/handle.rs:87-105 | corrected: dropping after a failed call hands that nonzero failure to `pam_end` |
| TtyNumber.Unsigned | src/main.rs:78-81 | strips one leading `+` and nothing else |
| TtyNumber.ParseU16 | src/main.rs:78-81 | parses iff the text is an optional `+` and at least one digit whose value is at most 65535 |
| TtyNumber.DigitChar | src/main.rs:78-81 | the digit character of a number below 10 |
| TtyNumber.Decimal | src/main.rs:78-81 | a nonempty digit string without a sign |
| TtyNumber.DecimalValue | src/main.rs:78-81 | the decimal digits of a number spell that number |
| TtyNumber.ParseDecimal | src/main.rs:78-81 | every number up to 65535 parses back from its decimal text, with or without `+` |
| TtyNumber.ParseRejectsOverflow | src/main.rs:78-81 | a number above 65535 does not parse |
| TtyNumber.ValidateTtyNumber | src/main.rs:78-86 | a non-number is rejected with a message quoting it; 0 is too small; otherwise the parsed number, within 1..65535 |
| TtyNumber.ValidateDecimal | src/main.rs:78-86 | exactly 1..65535 are accepted from their decimal text; 0 is too small; larger numbers are not numbers |
| TtyNumber.DefaultTtyNumberIsValid | src/main.rs:64-109 | the default tty number 1 is a valid tty number |

## Left out

- Linux-PAM itself (`pam/ffi.rs`, `pam/aliases.rs`) is not part of this model. Every native function is a parameter: the code, pointer or handle it returns. The model records the call on the handle, and changes the environment and items only by Linux-PAM's documented rules.
- Raw memory is modelled as sequences, arrays and `Option`s. Addresses are not modelled:
  - `calloc` and `free`
  - `CHeapBox` transmutes and casts
  - `iter_over`'s pointer walk
  - the `Immovable` marker and the pinned address of the owned conversation
  - Releasing memory is a `freed` flag or a list of released entries.
- `ErrorCode`'s `Display` calls the foreign `pam_strerror`, so it is not modelled.
- The tty ioctls (`tty.rs`) and the process and command-line plumbing of the application are not modelled. Of the command line, only the tty number's parser and its default are.
- `OwnedExchange` to `Exchange` is a borrow that always succeeds and keeps the variant. The model shows the conversation the owned exchange itself, so this conversion is the identity and has no member.
- `Buffer for CHeapBox<u8>` is the same zeroed allocation as `Helper.Allocate` and has no member of its own.
- The older module's question file (`pam/conversation/question.rs`) is not part of this model. Its callback uses the same decoding as the current module.
- Notification methods (`info_msg`, `error_msg`) return nothing. The model records that they were called.
- Exchanges.Adapter: an adapter's answers are a function of the question alone, so adapter state is not modelled. A real adapter takes `&self` and may read a terminal or remember earlier messages; in the model two identical prompts in one batch get the same answer, and an `info_msg` cannot change a later answer. A conversation of the application's own (`Custom`) is likewise a fixed function of the batch. `Conversations.Communicate` and the callback lemmas are stated under this abstraction.
- Handle.Pam.Username: does not model the side effect of `pam_get_user` on the stored `PAM_USER` item, because Linux-PAM decides that.
- The borrowed views `PamEnv`, `PamEnvMut`, `PamItems` and `PamItemsMut` are not types of their own. Their methods are the handle-level members `EnvGet`, `EnvSet`, `EnvIter`, `ViewGet` and `ViewSet`.
- Environ.EnvSet: for a key that contains `=`, the model states only Linux-PAM's rule. `pam_putenv` then sets the name before the first `=`, which is not the key.
- Environ.PairsFrom: states its first element and the rest, not every element at once. Element-wise order follows by unfolding.
- TtyNumber.ParseU16: the error of `u16::from_str` is not modelled, because only the fact that it failed reaches the message.
- Conversations.CallbackOutcome: the success case is stated through `AnswerArray.BuildSpec` and the lemmas `DemuxCallbackAnswers` and `DemuxCallbackRefusal`, not in its own contract.
- Questions.DropQuestion: the free of the question's data after the zeroing is not modelled; only the zeroing is stated.
- Helper.Fill: the model places the big-endian length in bytes 0..3 and the type in byte 4, which is the declared field order of `BinaryPayload`. That struct has no `#[repr(C)]`, so Rust does not promise this layout for the pointer cast; the model assumes it.

## Findings

| source | as written | input that shows it | evidently intended | confidence | as-written member | corrected member |
|---|---|---|---|---|---|---|
| authkit/src/handle.rs:87-91 | `end` (lines 152-155) takes `&mut self` and does not mark the transaction ended, and `Drop` always calls `end(Ok(()))`. So `end(r)` followed by the drop calls `pam_end` twice on the same handle, and the drop passes 0 even after a failed call. `last_return` is written by every call and read only by the `Debug` impl (line 25); no teardown path reads it. | `p.end(Err(AuthenticationError))` then drop `p`: `pam_end(h, 7)` and then `pam_end(h, 0)` on a handle Linux-PAM has already freed | teardown happens once, and the drop passes the cached outcome of the last call | not executed | Handle.EndThenDrop | Handle.EndOnceThenDropOnce |
