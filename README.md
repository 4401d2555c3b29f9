# Chat state and 3D number selection, modelled in Dafny

This project models the parts of the F5J4 betting front end that carry logic:

- the chat configuration's message helpers (`validateMessage`, `truncateMessage`, `maxMessageLength`);
- the chat context's reducer, and the provider's `joinChat`, `leaveChat`, `sendMessage`, `loadMessages`, `loadOnlineUsers` and `updateOnlineStatus` controllers;
- the 3D betting page's selection of three-digit numbers: `chooseNumber`, `removeNumber`, `generatePermutations`, `addPermutation`, `removeSpecificDigit`, `addDigits` and the checks and mapping in `goToConfirm`;
- the quick-select panel's number groups: `generateBreakGroups`, the six constant tables, and `handleAddNumbers`.

Files and modules:

- `js_runtime.dfy` (`JsRuntime`): the JavaScript built-ins this code relies on, stated over Dafny strings:
  - `String.prototype.trim`, with the full ECMAScript white-space and line-terminator set;
  - `Number.prototype.toString` and `parseInt` for non-negative integers;
  - `padStart`;
  - the "no element twice" property that the `includes` guards keep.
- `chat_config.dfy` (`ChatConfig`): `validateMessage` and `truncateMessage` as functions. `validateMessage` takes any JavaScript value: a string or anything else.
- `chat_context.dfy` (`ChatContext`):
  - `chatReducer` is a function over the six-field state record.
  - The provider is a class. It holds the state, the token, whether the Echo client exists, the set of channels Echo listens on, the list of dispatched actions, and the list of requests sent.
  - Every `fetch` becomes a parameter saying how the server answered: OK with a body, not OK, or thrown.
- `three_d_page.dfy` (`ThreeDPage`):
  - The page is a class whose fields are the selection and the three input strings.
  - `generatePermutations`, `addDigits` and `addPermutation` are loop methods proved against specification functions.
  - `goToConfirm` is a function.
- `three_d_choose_option.dfy` (`ThreeDChooseOption`):
  - `generateBreakGroups` is a loop method with find-or-create, proved equal to a closed-form table of 28 groups.
  - The six tables are constants, each with a lemma that characterises its contents.

Behaviour of the code, stated as it is:

- A token counts as present only when it is a non-empty string: `!token` also holds for `""`.
- `truncateMessage` with a negative limit returns just "...".
- `validateMessage("")` reports "Message must be a string", because the empty string is falsy. The length limit applies to the untrimmed string.
- `ADD_MESSAGE` appends without deduplication or ordering, and `SET_MESSAGES` replaces the whole list.
- The user-joined and user-left listeners never touch `onlineUsers`. `joinChat` has no guard against joining twice.
- `leaveChat` always leaves the channel `chat.1`, whatever room was joined. `ChatContext.LeaveAfterJoinKeepsRoomChannel` walks through joining room 7 and leaving: Echo is still listening on `chat.7` afterwards.
- `addDigits` announces `digits.length`, not the number of entries it actually added.
- An amount that `parseFloat` reads as NaN or +Infinity passes the `parseFloat(amount) <= 0` check.
- `Front k` holds only k00 .. k09, and `Back k` only 00k .. 90k: the numbers whose middle digit is 0, not every number with that first or last digit.
- `generateBreakGroups` already produces its groups in ascending order of sum. The final `sort` therefore returns them unchanged.

## Model

| member | source | states |
|---|---|---|
| ChatConfig.ValidateMessage | src/config/chat.js:130-147 | valid exactly when the value is a string that is not all white space and at most 1000 characters long, untrimmed; a non-string or "" gives "Message must be a string", a non-empty white-space string "Message cannot be empty", a longer one the "Message too long. Maximum 1000 characters allowed." text |
| ChatConfig.ValidateMessageBoundaries | src/config/chat.js:25 | exactly 1000 characters is accepted, 1001 is too long, " " is empty and "" is not a string |
| ChatConfig.TooLongError | src/config/chat.js:142 | the too-long error spells out the 1000-character limit: "Message too long. Maximum 1000 characters allowed." |
| ChatConfig.TruncateMessage | src/config/chat.js:125-128 | a message no longer than the limit comes back unchanged; a longer one becomes its first `maxLength` characters followed by "...", `maxLength + 3` long; a negative limit leaves only "..." because `substring` clamps a negative end to 0 |
| ChatConfig.TruncateLengthBound | src/config/chat.js:125-128 | the result is never longer than the message, or than the kept prefix (0 for a negative limit) plus three |
| ChatConfig.TruncateIdempotent | src/config/chat.js:125-128 | truncating a truncated message with the same limit changes nothing |
| JsRuntime.TrimEmptyIffAllWhitespace | src/config/chat.js:135 | `trim()` gives the empty string exactly when every character is white space |
| JsRuntime.TrimStart | src/pages/ThreeDPage.jsx:50 | the result is a suffix of the string, everything dropped before it is white space, and it does not start with white space |
| JsRuntime.TrimEnd | src/pages/ThreeDPage.jsx:50 | the result is a prefix of the string, everything dropped after it is white space, and it does not end with white space |
| JsRuntime.Trim | src/pages/ThreeDPage.jsx:50 | the result is what is left after dropping the leading white space and then the trailing run; it starts and ends with non-white-space |
| JsRuntime.PadStart | src/components/ThreeDChooseOption.jsx:22 | the result keeps the string at its end and fills in front of it up to the length |
| JsRuntime.ToDecimal | src/components/ThreeDChooseOption.jsx:22 | `toString` of a non-negative integer is at least one character, all decimal digits, and a single character exactly for numbers below ten |
| JsRuntime.ToDecimalInjective | src/components/ThreeDChooseOption.jsx:26-28 | different numbers print differently |
| JsRuntime.ParseDecimal | src/components/ThreeDChooseOption.jsx:23 | `parseInt` reads one digit as its own value, and a string of `k` digits as a number below `10^k` |
| JsRuntime.ParseDecimalOfToDecimal | src/components/ThreeDChooseOption.jsx:36-37 | `parseInt` reads back the number that `toString` wrote |
| JsRuntime.NoDuplicatesCardinality | src/pages/ThreeDPage.jsx:85-87 | a list that the `includes` guard keeps free of repeats has as many distinct entries as entries |
| ChatContext.ChatReducer | src/contexts/ChatContext.jsx:44-63 | every action rewrites only the field it names; an unknown action returns the state unchanged |
| ChatContext.SetMessagesReplaces | src/contexts/ChatContext.jsx:46-47 | `SET_MESSAGES` makes the list equal to the payload and leaves every other field as it was |
| ChatContext.AddMessageAppends | src/contexts/ChatContext.jsx:48-49 | `ADD_MESSAGE` grows the list by one, keeps the old list as prefix, puts the payload last, and adds a copy even if it is already there |
| ChatContext.SetActionsIdempotent | src/contexts/ChatContext.jsx:44-63 | every action except `ADD_MESSAGE` has the same effect dispatched twice as once |
| ChatContext.ReplayAppend | src/contexts/ChatContext.jsx:44-63 | dispatching two runs of actions is dispatching the first and then the second |
| ChatContext.ReplayAddMessages | src/contexts/ChatContext.jsx:164-166 | a run of pushed messages leaves the old log followed by them in arrival order, and no other field changes |
| ChatContext.JoinActions | src/contexts/ChatContext.jsx:142-187 | `joinChat` dispatches three to five actions: `loading` set first, cleared last and not touched in between; `hasJoined` set exactly when the join is accepted, the join error raised exactly when it is not |
| ChatContext.JoinLoadingBracket | src/contexts/ChatContext.jsx:142-187 | on every path of `joinChat`, `loading` holds in every state between the first and last dispatch and is false at the end |
| ChatContext.JoinOutcome | src/contexts/ChatContext.jsx:157-187 | after `joinChat`'s actions, `hasJoined` is set exactly by an OK answer (or was already), a failure sets the join error, `loading` is off, the connection flag is untouched, and on success the history replaces the log |
| ChatContext.ChatProvider.constructor | src/contexts/ChatContext.jsx:67-77 | the state starts with no messages or users, disconnected, not loading, no error and not joined |
| ChatContext.ChatProvider.Dispatch | src/contexts/ChatContext.jsx:67 | the new state is the reducer applied to the old one, and the action is logged |
| ChatContext.ChatProvider.LoadMessages | src/contexts/ChatContext.jsx:247-265 | without a token (absent or the empty string, both falsy) nothing changes; otherwise one request, and only an OK answer replaces the log (with `[]` when the body has none) |
| ChatContext.ChatProvider.LoadOnlineUsers | src/contexts/ChatContext.jsx:268-286 | the same for the online users |
| ChatContext.ChatProvider.JoinAccepted | src/contexts/ChatContext.jsx:157-177 | the OK branch sets `hasJoined`, listens on `chat.<room_id>` when Echo exists, then loads history and users in that order |
| ChatContext.ChatProvider.JoinChat | src/contexts/ChatContext.jsx:139-188 | without a token (absent or the empty string, both falsy) nothing changes; otherwise the dispatched actions are exactly the loading bracket around the OK or failure branch, and the requests, channels and state are given case by case |
| ChatContext.ChatProvider.LeaveChat | src/contexts/ChatContext.jsx:191-212 | without a token (absent or the empty string, both falsy) nothing changes; a leave request that returns clears `hasJoined` and leaves `chat.1`; one that throws changes nothing else |
| ChatContext.ChatProvider.SendMessage | src/contexts/ChatContext.jsx:215-244 | the log is never touched; without a token (absent or empty) or before joining nothing changes; an invalid message records its validation error and is not sent; a valid one is posted once and a failure records the send error |
| ChatContext.ChatProvider.UpdateOnlineStatus | src/contexts/ChatContext.jsx:289-304 | with a non-empty token one heartbeat request goes out, without one nothing happens; the state is untouched |
| ChatContext.ChatProvider.OnChatMessageSent | src/contexts/ChatContext.jsx:164-166 | a pushed message is appended to the log |
| ChatContext.ChatProvider.OnPresenceEvent | src/contexts/ChatContext.jsx:167-172 | joined and left events leave the online users unchanged |
| ChatContext.LeaveAfterJoinKeepsRoomChannel | src/contexts/ChatContext.jsx:159-207 | joining room 7 and then leaving clears `hasJoined`, yet Echo is still listening on `chat.7` and on nothing else |
| ThreeDPage.CheckChoice | src/pages/ThreeDPage.jsx:44-65 | empty exactly for white-space input, not-three-digits exactly when the trimmed input is not three ASCII digits, already-selected exactly when it is and is in the selection, chosen (the trimmed input) otherwise |
| ThreeDPage.SelectionPage.constructor | src/pages/ThreeDPage.jsx:21-24 | the selection and the three inputs start empty |
| ThreeDPage.SelectionPage.ChooseNumber | src/pages/ThreeDPage.jsx:44-65 | a chosen number is appended and the input cleared; every refusal changes nothing; the selection stays duplicate-free |
| ThreeDPage.SelectionPage.RemoveNumber | src/pages/ThreeDPage.jsx:68-72 | the selection and both amounts become empty |
| ThreeDPage.KeptContents | src/pages/ThreeDPage.jsx:83-88 | one pass of the innermost loop adds at most the arrangement of positions `(i, j, k)`, only when they differ, and never a repeat |
| ThreeDPage.RunKeeps | src/pages/ThreeDPage.jsx:80-91 | the loops never drop an entry from the list built so far |
| ThreeDPage.RunSound | src/pages/ThreeDPage.jsx:80-91 | the loops add only arrangements of three different positions, and a list without repeats stays without repeats |
| ThreeDPage.RunComplete | src/pages/ThreeDPage.jsx:80-91 | from positions `(i, j, k)` on, the loops add every arrangement of three different positions that comes at or after them in loop order |
| ThreeDPage.PermutationsProperties | src/pages/ThreeDPage.jsx:75-94 | the list the loops build holds no number twice, only arrangements of three different positions and every one of them; for three characters that is the six orders, the input included, at most six entries |
| ThreeDPage.GeneratePermutations | src/pages/ThreeDPage.jsx:75-94 | the result is exactly the list the three loops build, in loop order; no duplicates; every entry is an arrangement of the digits at three distinct positions and every such arrangement is present; for three characters the entries are exactly the six orders, the input is among them and there are at most six |
| ThreeDPage.ArrangementOfThree | src/pages/ThreeDPage.jsx:80-86 | an arrangement of three characters is one of their six orders |
| ThreeDPage.ArrangementIsThreeDigit | src/pages/ThreeDPage.jsx:84 | rearranging a three-digit number gives a three-digit number |
| ThreeDPage.AtMostSixOrders | src/pages/ThreeDPage.jsx:83-90 | a set of orders of three characters has at most six elements |
| ThreeDPage.WithPermutationsKeepsPrefix | src/pages/ThreeDPage.jsx:103-111 | the list `addPermutation` builds keeps the old selection, in order, at the front |
| ThreeDPage.WithPermutationsNoDuplicates | src/pages/ThreeDPage.jsx:106-110 | starting from a list without repeats, `addPermutation` adds no repeat |
| ThreeDPage.WithPermutationsSound | src/pages/ThreeDPage.jsx:104-111 | every number in the result was in the list or is an arrangement of one of the numbers gone through |
| ThreeDPage.WithPermutationsComplete | src/pages/ThreeDPage.jsx:104-111 | every arrangement of three different positions of every number gone through ends up in the result |
| ThreeDPage.WithPermutationsProperties | src/pages/ThreeDPage.jsx:97-115 | for a selection without repeats: the old selection is the prefix, nothing is repeated, everything after the prefix is an arrangement of a selected number, every such arrangement is present, and a three-digit selection stays three-digit |
| ThreeDPage.SelectionPage.AddPermutation | src/pages/ThreeDPage.jsx:97-115 | an empty selection is reported and left alone; otherwise the selection becomes, exactly, the old one followed number by number by the missing permutations in the order `generatePermutations` lists them, the count added is reported, and the selection stays duplicate-free |
| ThreeDPage.Without | src/pages/ThreeDPage.jsx:119 | the result holds every other number as often as before and none of the removed one |
| ThreeDPage.WithoutKeepsOrder | src/pages/ThreeDPage.jsx:119 | what is left is a subsequence of the selection, in the same order |
| ThreeDPage.WithoutShrinks | src/pages/ThreeDPage.jsx:119 | a duplicate-free selection stays duplicate-free and loses exactly one entry when the number was present |
| ThreeDPage.SelectionPage.RemoveSpecificDigit | src/pages/ThreeDPage.jsx:118-120 | the selection becomes the filtered one and does not grow |
| ThreeDPage.AppendMissing | src/pages/ThreeDPage.jsx:124-129 | the list `addDigits` builds is never longer than the selection and the given list together |
| ThreeDPage.AppendMissingFront | src/pages/ThreeDPage.jsx:125-128 | one `forEach` step: the first number is pushed unless present, then the rest are added |
| ThreeDPage.SelectionPage.AddDigits | src/pages/ThreeDPage.jsx:123-132 | the selection becomes the old one followed by the missing numbers in order, and the announced count is the length of the list given |
| ThreeDPage.AppendMissingKeepsPrefix | src/pages/ThreeDPage.jsx:124-129 | the old selection is a prefix of the new one |
| ThreeDPage.AppendMissingContents | src/pages/ThreeDPage.jsx:124-129 | a number is in the result exactly when it was selected or in the list |
| ThreeDPage.AppendMissingNoDuplicates | src/pages/ThreeDPage.jsx:126-128 | no duplicates come in, even from a list that repeats a number |
| ThreeDPage.AppendMissingAllPresent | src/pages/ThreeDPage.jsx:126-128 | a list of numbers already selected changes nothing |
| ThreeDPage.AppendMissingIdempotent | src/pages/ThreeDPage.jsx:123-130 | adding the same list twice is adding it once |
| ThreeDPage.GoToConfirm | src/pages/ThreeDPage.jsx:135-150 | refused exactly when nothing is selected, then exactly when the amount is empty or parses to a number not above zero or to -Infinity (NaN and +Infinity pass); otherwise one entry per selected number, in order, with that number and the parsed amount |
| ThreeDChooseOption.GenerateBreakGroups | src/components/ThreeDChooseOption.jsx:17-40 | the result is the table `Break 0` .. `Break 27` holding every number with that digit sum in counting order, and strictly ascending by break number |
| ThreeDChooseOption.FindGroup | src/components/ThreeDChooseOption.jsx:26 | finds the first group with the name, or reports that none has it |
| ThreeDChooseOption.Pad3 | src/components/ThreeDChooseOption.jsx:22 | the label is three digit characters whose value is the number |
| ThreeDChooseOption.PaddedDecimal | src/components/ThreeDChooseOption.jsx:22 | `toString` followed by `padStart(3, '0')` gives the three digits of the number |
| ThreeDChooseOption.Pad3OfValue | src/components/ThreeDChooseOption.jsx:22 | every three-digit label is the padding of its value |
| ThreeDChooseOption.SumOfDigits | src/components/ThreeDChooseOption.jsx:23 | the sum over digit characters lies between 0 and nine per character |
| ThreeDChooseOption.SumOfThreeDigits | src/components/ThreeDChooseOption.jsx:23 | the reduce over a label adds its three digits, which is the digit sum of its value |
| ThreeDChooseOption.NumberValue | src/components/ThreeDChooseOption.jsx:21-22 | the value of a three-digit label is below 1000 |
| ThreeDChooseOption.NumberValueInjective | src/components/ThreeDChooseOption.jsx:21-22 | two three-digit labels with the same value are the same label |
| ThreeDChooseOption.BreakName | src/components/ThreeDChooseOption.jsx:26-28 | a group name is "Break " followed by at least one more character |
| ThreeDChooseOption.BreakNameInjective | src/components/ThreeDChooseOption.jsx:26-28 | different sums give different group names |
| ThreeDChooseOption.BreakNameSuffix | src/components/ThreeDChooseOption.jsx:36-37 | the number after "Break " in `Break s` reads back as `s` |
| ThreeDChooseOption.BreakNumber | src/components/ThreeDChooseOption.jsx:36-37 | the sort key the comparator reads from `Break s` is `s` |
| ThreeDChooseOption.NumbersWithSum | src/components/ThreeDChooseOption.jsx:21-31 | a group's numbers so far are three-digit labels below the bound, strictly ascending |
| ThreeDChooseOption.NumbersWithSumMembers | src/components/ThreeDChooseOption.jsx:21-31 | a label is in the group of `s` after the loop has passed `bound` exactly when its value is below `bound` and its digits add up to `s` |
| ThreeDChooseOption.BreakTable | src/components/ThreeDChooseOption.jsx:35-39 | there are 28 groups |
| ThreeDChooseOption.BreakGroupsComplete | src/components/ThreeDChooseOption.jsx:35-39 | after the last number the groups are the full table, ascending by break number |
| ThreeDChooseOption.ExtendGroup | src/components/ThreeDChooseOption.jsx:31 | pushing onto an existing group keeps the loop invariant |
| ThreeDChooseOption.StartGroup | src/components/ThreeDChooseOption.jsx:27-31 | opening the next group keeps the loop invariant |
| ThreeDChooseOption.SortedArrangementUnique | src/components/ThreeDChooseOption.jsx:35-39 | a list ordered by the comparator that holds the same groups as a strictly ascending list is that list, so the sort leaves the groups in place |
| ThreeDChooseOption.EachNumberInOneBreakGroup | src/components/ThreeDChooseOption.jsx:21-32 | every three-digit label is in exactly one group, the one of its digit sum |
| ThreeDChooseOption.BreakGroupContents | src/components/ThreeDChooseOption.jsx:23-31 | group `s` is named `Break s`, holds only labels with digit sum `s`, in ascending order |
| ThreeDChooseOption.BreakGroupsHoldAllNumbers | src/components/ThreeDChooseOption.jsx:21-32 | the groups hold 1000 numbers in total |
| ThreeDChooseOption.SingleNumbersAreOddBelow100 | src/components/ThreeDChooseOption.jsx:44 | `singleNumbers` are 50 labels, the j-th worth `1 + 2j` |
| ThreeDChooseOption.SingleNumbersMembers | src/components/ThreeDChooseOption.jsx:44 | a label is in `singleNumbers` exactly when it is odd and below 100 |
| ThreeDChooseOption.DoubleNumbersAreEvenBelow100 | src/components/ThreeDChooseOption.jsx:46 | `doubleNumbers` are 50 labels, the j-th worth `2j` |
| ThreeDChooseOption.DoubleNumbersMembers | src/components/ThreeDChooseOption.jsx:46 | a label is in `doubleNumbers` exactly when it is even and below 100 |
| ThreeDChooseOption.FrontNumbersByFirstDigit | src/components/ThreeDChooseOption.jsx:48-59 | `Front k` is named after `k` and holds ten labels worth `100k` .. `100k + 9`, ascending |
| ThreeDChooseOption.FrontNumbersMembers | src/components/ThreeDChooseOption.jsx:48-59 | a label is in `Front k` exactly when its first digit is `k` and its middle digit is 0 |
| ThreeDChooseOption.BackNumbersByLastDigit | src/components/ThreeDChooseOption.jsx:61-72 | `Back k` is named after `k` and holds ten labels worth `k`, `100 + k` .. `900 + k`, ascending |
| ThreeDChooseOption.BackNumbersMembers | src/components/ThreeDChooseOption.jsx:61-72 | a label is in `Back k` exactly when its last digit is `k` and its middle digit is 0 |
| ThreeDChooseOption.PowerNumbersRepeatOneDigit | src/components/ThreeDChooseOption.jsx:74 | `powerNumbers` are ten labels, the j-th worth `111j` |
| ThreeDChooseOption.PowerNumbersMembers | src/components/ThreeDChooseOption.jsx:74 | a label is in `powerNumbers` exactly when its three digits are equal |
| ThreeDChooseOption.TwentyNumbersCountUp | src/components/ThreeDChooseOption.jsx:76-79 | `twentyNumbers` are 20 labels, the j-th worth `j` |
| ThreeDChooseOption.HandleAddNumbers | src/components/ThreeDChooseOption.jsx:85-90 | the list is passed unchanged to `onAddDigits` exactly when that callback exists, and `onClose` is always called, last |

## Left out

- The Echo and Pusher wiring is foreign library code and network I/O. This covers `initializeEcho`, the socket connect, disconnect and connect-error handlers, and the `storage` token listener. Echo appears only as whether it exists and which channels it listens on.
- `fetch` and `response.json()` are not modelled as calls. Each request is logged, and its answer is a parameter: OK with or without the expected list, not OK, or thrown. A body that fails to parse counts as thrown, because that is where the code ends up.
- The `await` points and React's batching are not modelled. Each controller runs to completion against the state it reads, so a stale closure over `state.hasJoined` or `echo` is not captured.
- String lengths are counted in Unicode characters, not in UTF-16 code units as JavaScript counts them.
- `formatMessageTime` and `formatMessageDate` use dates, locales and floating-point day arithmetic.
- `parseFloat` is a parameter of `GoToConfirm` (a real number, +Infinity, -Infinity or NaN) rather than a string parser. The floating-point `totalAmount`, the `localStorage` write and the navigation are left out.
- Toasts, timers, rendering, the routes and the other pages and components are presentation.
- The model of `generateBreakGroups` replaces a group inside the list where the code mutates a shared group object. No other reference to the group exists, so the two agree.
- The final `sort` of `generateBreakGroups` is not run as a sorting algorithm. Instead the list is proved strictly ascending before the sort, and any ordering of the same groups that the comparator accepts is proved to be that same list.
- ThreeDChooseOption.BreakNumber: the contract covers only names of the form `Break s`, the only names the component builds; for any other string the key is left unspecified, and `split(' ')` is not modelled in general.
- The 50-entry tables are written as five literal rows of ten joined together; the value is the same list.
