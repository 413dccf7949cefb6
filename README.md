# AIko message arbitration and prompt memory, in Dafny

AIko is a chatbot that streams. A small set of Python modules decides what it
says next and what it remembers. This project models those modules and proves
properties of the model.

- **Message arbitration** (`AIkoStreamingTools.py`; its earlier version
  `Streamlab.py`). System messages wait in a FIFO. The latest microphone
  message waits in a single slot that expires. Chat messages wait in a pool of
  ten slots and are picked at random. A `MasterQueue` returns the next message
  with priority system > mic > chat. A cooldown throttles chat.
- **Prompt memory** (`AIko.py`). Windows of fixed length hold the scenario
  (1 slot), the side prompts (5) and the conversation (10). Adding a message
  drops the oldest slot. The module also assembles the request context, updates
  the memory after a completion, cleans prompt files into text, and turns file
  names into keyword keys.
- **Producers** (`Livestream.py`; its earlier version `LivestreamGUI.py`).
  - Twitch and YouTube chat threads triage each message. A same-author
    follow-up is merged into the entry still pending in the pool.
  - A parser turns speech-recognition events into mic messages.
  - `parse_msg` splits a chat entry into author and body.
  - The remote side-prompt receiver splits off and dispatches an option
    character.
- **Command line** (`AIkoStreamingGUI.py`). The interpreter splits a line at
  its first whitespace run and calls a handler from its command dictionary. It
  also holds the slot-to-text helper and the toggle state of an image button.
- **Configuration defaults** (`AIkoINIhandler.py` and its older version
  `AikoINIhandler.py`). Every section and option of a fixed defaults table is
  made present. Nothing the file already holds is changed.
- **Audio endpoints** (`AIkoVoice.py`, `VoiceLink.py`). A scanner finds a
  device's endpoint id in the output of the device-listing tool. The recognizer
  and the synthesizer react to a failed scan in different ways.

## How it is modelled

- Objects whose fields change are Dafny classes: the queues, the container,
  the pool, the arbiter, the message windows, the character, the chat threads,
  the command line and the button. Their methods carry `modifies` clauses and
  state the whole new state.
- Python loops are Dafny loops with invariants. Each is proved against a
  specification function:
  - `create_limited_list` and `get_items`;
  - `txt_to_string` and `gather_txts`;
  - the pool's full emptiness scan;
  - the chat loops;
  - the INI merge;
  - the character loop of the endpoint scanner.
- Pure parsing and dispatch are functions, with lemmas for their meaning.
- Time is a `now: real` parameter, and the expiry thread is a `Sweep(now)`
  call.
- `random.choice` and `randint` are nondeterministic choices (`:|`). The
  contracts hold for every choice.
- An exception is a `Failure(...)` or `Raised(...)` value of the `PyException`
  datatype.
- Python `str` operations are modelled in the `Text` module: `index`, `in`,
  clamped slicing, ASCII `lower`/`upper`, `strip`, `replace` and `split`.

## Model

| member | source | states |
|---|---|---|
| LimitedList.CreateLimitedList | AIko.py:67-74 | the list has exactly `length` slots and every slot is blank |
| LimitedList.ShiftInAllSlides | AIko.py:248-258 | adding items keeps the window's length; the window is always the last \|window\| elements of everything added, in order |
| LimitedList.EvictionKeepsNewest | AIko.py:248-258 | once at least \|window\| items have been added, exactly the newest \|window\| remain, oldest first |
| StreamingTools.FirstIndex | AIkoStreamingTools.py:225-231 | `list.index`: the result holds the value and no earlier slot does |
| StreamingTools.PoolEdit | AIkoStreamingTools.py:225-231 | fails (ValueError) exactly when the original is absent; otherwise only its first occurrence is replaced |
| StreamingTools.PoolDelete | AIkoStreamingTools.py:233-237 | ValueError exactly for an index above 10; IndexError exactly for an index outside the list that passes the guard; otherwise the slot at the Python index (negative counts from the end) is blanked |
| StreamingTools.OccupiedZero | AIkoStreamingTools.py:187-191 | the full-scan emptiness test holds exactly when no slot holds a message |
| StreamingTools.OccupiedUpdate | AIkoStreamingTools.py:205-223 | overwriting one slot changes the count of occupied slots by what left and what arrived |
| StreamingTools.PickDeliversWhenPending | AIkoStreamingTools.py:205-223 | while a message is pending, a pick returns a real message and removes exactly that one (the multiset of slots loses it and gains one blank) |
| StreamingTools.PickOnEmptyPool | AIkoStreamingTools.py:205-223 | a pick on a pool with no pending message returns "" and changes nothing |
| StreamingTools.MessageQueue.constructor | AIkoStreamingTools.py:41-43 | the queue starts empty |
| StreamingTools.MessageQueue.AddMessage | AIkoStreamingTools.py:54-62 | the message is appended at the tail |
| StreamingTools.MessageQueue.GetNext | AIkoStreamingTools.py:64-75 | returns the head and removes it, or returns "" on an empty queue |
| StreamingTools.MessageContainer.constructor | AIkoStreamingTools.py:103-119 | the slot starts blank, with the expiry timer started at construction |
| StreamingTools.MessageContainer.SwitchMessage | AIkoStreamingTools.py:136-145 | last write wins and the expiry timer restarts |
| StreamingTools.MessageContainer.GetMessage | AIkoStreamingTools.py:156-166 | returns the stored message and leaves the slot blank |
| StreamingTools.QueueEmptiness | AIkoStreamingTools.py:45-75 | `is_empty` is false exactly when something was added, and polling until it holds takes every message back in order |
| StreamingTools.HasMessageLifecycle | AIkoStreamingTools.py:121-166 | `has_message` holds after a switch exactly for a non-empty message, still holds after a sweep exactly when it has not expired, and never holds after a read |
| StreamingTools.MessageContainer.Sweep | AIkoStreamingTools.py:121-134 | the message is cleared once the expiration has elapsed since the last switch, and kept before that |
| StreamingTools.MessagePool.constructor | AIkoStreamingTools.py:182-185 | ten blank slots |
| StreamingTools.MessagePool.IsEmpty | AIkoStreamingTools.py:187-191 | true exactly when every slot is blank |
| StreamingTools.MessagePool.AddMessage | AIkoStreamingTools.py:193-203 | the oldest slot is dropped, the message goes to the tail, and the size stays ten |
| StreamingTools.MessagePool.PickMessage | AIkoStreamingTools.py:205-223 | returns "" on an all-blank pool and changes nothing; otherwise returns one occupied slot's content and blanks that slot alone |
| StreamingTools.MessagePool.EditMessage | AIkoStreamingTools.py:225-231 | edits the first matching slot, or raises ValueError and changes nothing |
| StreamingTools.MessagePool.DeleteMessage | AIkoStreamingTools.py:233-237 | blanks the slot at a Python index, or raises ValueError/IndexError (see PoolDelete) and changes nothing |
| StreamingTools.MasterQueue.constructor | AIkoStreamingTools.py:288-305 | three fresh, empty channels, and chat allowed |
| StreamingTools.MasterQueue.AddMessage | AIkoStreamingTools.py:312-330 | "system", "mic" and "chat" each reach their own channel and leave the others unchanged; any other kind raises TypeError and changes nothing |
| StreamingTools.MasterQueue.EditChatMessage | AIkoStreamingTools.py:338-339 | forwards to the pool's edit |
| StreamingTools.MasterQueue.DeleteChatMessage | AIkoStreamingTools.py:341-342 | forwards to the pool's delete |
| StreamingTools.MasterQueue.EndCooldown | AIkoStreamingTools.py:307-310 | chat is allowed again when the cooldown ends |
| StreamingTools.MasterQueue.GetNext | AIkoStreamingTools.py:344-367 | priority system > mic > chat. The system queue is always popped and the mic slot is taken when reached. A chat selection starts a cooldown within the configured range and returns a pool pick, blank or not. An empty cooldown range raises ValueError. ("", "") while chat cools down |
| StreamingTools.FifoOrder | AIkoStreamingTools.py:54-75 | messages come out of the system queue in the order they went in |
| StreamingTools.PriorityOrder | AIkoStreamingTools.py:344-367 | one message on each channel with the configured defaults is delivered as system, then mic, then chat, then nothing during the cooldown, then a blank chat pick |
| StreamingTools.MicExpires | AIkoStreamingTools.py:121-166 | a mic message read in time is delivered; one left until the expiry reads as "" |
| Streamlab.LegacyPoolStrandsMessage | Streamlab.py:209-242 | the ends-only emptiness test strands a pending message: after add x, add y, pick y, every pick returns "" although x is pending, until another chat message is added |
| Streamlab.MessageQueue.constructor | Streamlab.py:58-60 | the queue starts empty |
| Streamlab.MessageQueue.Reinit | Streamlab.py:48-60 | calling the singleton's constructor again empties the shared queue |
| Streamlab.MessageQueue.AddMessage | Streamlab.py:71-79 | the message is appended at the tail |
| Streamlab.MessageQueue.GetNext | Streamlab.py:81-92 | returns the head and removes it, or returns "" on an empty queue |
| Streamlab.MessageContainer.constructor | Streamlab.py:120-129 | the slot starts blank, with the timer started at construction |
| Streamlab.MessageContainer.Reinit | Streamlab.py:110-129 | constructing again clears the message and leaves the expiry timer running |
| Streamlab.MessageContainer.SwitchMessage | Streamlab.py:146-155 | last write wins and the timer restarts |
| Streamlab.MessageContainer.GetMessage | Streamlab.py:166-176 | returns the stored message and leaves the slot blank |
| Streamlab.MessageContainer.Sweep | Streamlab.py:131-144 | the message is cleared after the hard-coded 10 s, and kept before that |
| Streamlab.MessagePool.constructor | Streamlab.py:205-207 | ten blank slots |
| Streamlab.MessagePool.Reinit | Streamlab.py:195-207 | constructing again blanks all ten slots |
| Streamlab.MessagePool.AddMessage | Streamlab.py:212-222 | the oldest slot is dropped and the message goes to the tail |
| Streamlab.MessagePool.PickMessage | Streamlab.py:224-242 | returns "" and changes nothing whenever both end slots are blank; otherwise blanks one occupied slot and returns its content |
| Streamlab.MasterQueue.constructor | Streamlab.py:276-280 | fresh, empty channels, and chat allowed |
| Streamlab.MasterQueue.Reinit | Streamlab.py:266-280 | constructing again resets all three shared channels and re-allows chat |
| Streamlab.MasterQueue.AddMessage | Streamlab.py:287-305 | routing by kind; an unknown kind raises TypeError and changes nothing |
| Streamlab.MasterQueue.EndCooldown | Streamlab.py:282-285 | chat is allowed again when the cooldown ends |
| Streamlab.MasterQueue.GetNext | Streamlab.py:307-329 | priority system > mic > chat. A chat selection starts a cooldown between 2 and 6 s and uses the ends-only pick |
| Streamlab.ReconstructionDropsPending | Streamlab.py:266-280 | constructing the arbiter again discards a queued system message and ends the cooldown |
| Aiko.Populated | AIko.py:260-269 | the non-blank slots, no more of them than there are slots |
| Aiko.WindowShowsNewest | AIko.py:248-269 | a fresh window shows the newest \|window\| turns added, in order, or all of them while fewer have been added |
| Aiko.WindowFull | AIko.py:248-269 | a window given at least its length in turns shows exactly the newest ones |
| Aiko.WindowFilling | AIko.py:248-269 | a blank window given fewer turns than its length shows all of them |
| Aiko.BlanksThenTurns | AIko.py:260-269 | blank slots followed by turns show exactly the turns |
| Aiko.MessageList.constructor | AIko.py:236-237 | n blank slots |
| Aiko.MessageList.AddItem | AIko.py:248-258 | the oldest slot is dropped and the new message is appended |
| Aiko.MessageList.GetItems | AIko.py:260-269 | the non-blank slots in order |
| Aiko.KeywordIndexFrom | AIko.py:388-393 | the first keyword from a position on that the message starts with, or none |
| Aiko.KeywordTurns | AIko.py:388-393 | at most one keyword turn, present exactly when some key starts the message, and it is the first such key's text |
| Aiko.ContextLayout | AIko.py:366-400 | the request order: personality, scenario, side prompts, context; a profile turn exactly when the message asks about preferences; at most one keyword turn, and only in system-role mode; the message last under the right role |
| Aiko.StripNamePrefix | AIko.py:419-421 | a completion starting with "Name:" is returned without it |
| Aiko.StripNameAfterOneChar | AIko.py:419-421 | with one character before "Name:", the cut falls one character short and the colon stays |
| Aiko.CleanOneLine | AIko.py:91-95 | the loop body computes exactly the cleaned line that CleanLineHasNoComment is about |
| Aiko.CleanLineHasNoComment | AIko.py:91-95 | a cleaned line holds no '#' |
| Aiko.CleanLinesHaveNoComment | AIko.py:76-98 | the text of a prompt file holds no '#' |
| Aiko.TxtToString | AIko.py:76-98 | a file that cannot be opened gives ""; otherwise the stripped lines, cut at '#' and concatenated |
| Aiko.KeywordKeyIsNormalised | AIko.py:203-209 | the key made from `str(entry)`, which shows the name through `repr`, holds no space, no single quote and no lower-case ASCII letter |
| Aiko.KeywordKeyKeepsDoubleQuote | AIko.py:203-209 | a name with a single quote and no double quote is shown by `repr` between double quotes, and its key keeps the opening `"`, so it only matches messages that start with `"` |
| Aiko.DictSetMeaning | AIko.py:213 | `txts[txt_name] = contents` keeps the keys distinct, adds exactly that key with the new text, and keeps every entry under another key |
| Aiko.SetEachMeaning | AIko.py:197-215 | setting pairs in turn from an empty dictionary names each key once, has exactly the pairs' keys, and keeps the last pair |
| Aiko.GatheredMeaning | AIko.py:197-215 | the gathered dictionary names each key once, holds every file's key and no other, and the last file keeps its text under its key |
| Aiko.GatherTxts | AIko.py:197-215 | the loop over the files builds the gathered dictionary |
| Aiko.WindowEmptyUntilFirstAdd | AIko.py:271-272 | on a fresh window, `is_empty` holds exactly until the first turn is added |
| Aiko.IsEmptyIgnoresOlderSlots | AIko.py:260-272 | `is_empty` looks only at the newest slot: a blank newest slot counts as empty even when `get_items` returns an older turn |
| Aiko.AIko.constructor | AIko.py:293-308 | blank context (10) and side-prompt (5) windows; the scenario window holds the scenario turn, even ""; the keywords are a dictionary, so each key appears once |
| Aiko.AIko.Interact | AIko.py:402-421 | the request is built from the memory as it was before the call; the context window then takes the message and the completion (system-role mode: the completion only); the reply loses a leading "Name:" |
| Aiko.AIko.AddSidePrompt | AIko.py:423-427 | the side-prompt window takes the new prompt |
| Aiko.AIko.ChangeScenario | AIko.py:429-433 | the scenario window holds exactly the new scenario |
| Aiko.FirstRequest | AIko.py:366-400 | a new character with an empty scenario still sends a blank scenario turn between the personality and the message |
| Livestream.FirstWord | Livestream.py:195 | `split(" ", 1)[0]`: a space-free prefix of the message |
| Livestream.ForwardedExactly | Livestream.py:188-205 | a message is forwarded exactly when it is non-empty, does not start with '!' and does not come from the StreamElements bot |
| Livestream.FollowerIsFirstWordTail | Livestream.py:194-199 | the follower named by an alert is the first word without its first character |
| Livestream.FeedStepKeepsPending | Livestream.py:207-246 | after a step the pool keeps its size, the author is remembered and the remembered entry is pending |
| Livestream.FollowUpMergesInPlace | Livestream.py:207-219 | a same-author follow-up rewrites the pending entry in place and touches no other slot |
| Livestream.PickedEntryIsNotMerged | Livestream.py:207-246 | once the entry has been picked, a follow-up is added as a new entry |
| Livestream.ConsecutiveMessagesShareOneEntry | Livestream.py:207-246 | two messages in a row from a new author end as one entry "author: first second" at the tail |
| Livestream.TwitchChatThread.constructor | Livestream.py:175-180 | no previous author |
| Livestream.TwitchChatThread.AttemptMerge | Livestream.py:207-219 | merges exactly when the author is the previous one and the entry is still pending; otherwise nothing changes |
| Livestream.TwitchChatThread.Step | Livestream.py:221-246 | skipped messages change nothing; a follow alert queues one system message; a forwarded message takes the merge step |
| Livestream.YoutubeChatThread.constructor | Livestream.py:250-255 | no previous author |
| Livestream.YoutubeChatThread.AttemptMerge | Livestream.py:264-276 | merges exactly when the author is the previous one and the entry is still pending |
| Livestream.YoutubeChatThread.Step | Livestream.py:278-303 | every item takes the merge step |
| Livestream.ParseEvent | Livestream.py:378-386 | fails exactly when either marker is absent; the same code is at LivestreamGUI.py:262-270 |
| Livestream.ParsedTextHasNoTerminator | Livestream.py:378-386 | the extracted text never holds `",` |
| Livestream.KeyFoundAfterPrefix | Livestream.py:378-386 | with no quote before it, the first `text="` of an event is the one after the prefix |
| Livestream.EndFoundAfterBody | Livestream.py:378-386 | with no quote in the prefix or body and no leading comma, the first `",` is the one right after the body |
| Livestream.ParseEventRoundTrip | Livestream.py:378-386 | an event showing `text="body",` (no quote before it or in it, and no leading comma) yields the body |
| Livestream.OnSpeechEvent | Livestream.py:378-389 | a non-empty text becomes the mic message "username: text"; an empty one changes nothing; a missing marker raises ValueError |
| Livestream.ParseMsg | Livestream.py:448-453 | fails exactly when the separator is absent; the same code is at LivestreamGUI.py:317-322 |
| Livestream.ParseMsgRoundTrip | Livestream.py:448-453 | a chat entry "author: body" splits back into its author and body |
| Livestream.MergedEntryKeepsAuthor | Livestream.py:448-453 | a merged entry still reports its author |
| Livestream.RemoteSplit | Livestream.py:351-352 | a non-empty message is its body followed by one option character |
| Livestream.RemoteSplitRoundTrip | Livestream.py:351-352 | body + option splits back into the two |
| Livestream.RemoteReceive | Livestream.py:351-370 | option '1' queues the body as a system message; '2' adds it as a side prompt; any other option aborts; an empty message is swallowed; the same code is at LivestreamGUI.py:236-254 |
| LivestreamGUI.MergeOrAdd | LivestreamGUI.py:162-178 | one received message updates the chat pool and the last message exactly as one `FeedStep` merge step; nothing else in the queue changes |
| LivestreamGUI.FeedAllAppend | LivestreamGUI.py:191-209 | feeding two batches in turn is feeding their concatenation, and the pool keeps its size |
| LivestreamGUI.FeedAllSnoc | LivestreamGUI.py:150-184 | feeding one more message is one more merge step, and the pool keeps its size |
| LivestreamGUI.TwitchChatLoop | LivestreamGUI.py:150-184 | after the loop, the pool and the remembered author and entry are the merge rule applied to every received message, commands included |
| LivestreamGUI.YoutubeChatLoop | LivestreamGUI.py:187-214 | the merge rule applied item by item across all batches; the same code is at Livestream.py:304-330 |
| LivestreamGUI.CommandsReachThePool | LivestreamGUI.py:150-184 | a "!" command reaches the chat pool here, where the later Twitch thread drops it |
| StreamingGUI.WordLength | AIkoStreamingGUI.py:106 | the leading run of non-whitespace characters |
| StreamingGUI.SplitOnceShape | AIkoStreamingGUI.py:106 | nothing on blank input; otherwise a non-empty command with no whitespace, and an argument that starts with a non-whitespace character |
| StreamingGUI.SplitOnceRoundTrip | AIkoStreamingGUI.py:106 | "command argument" splits back into the two |
| StreamingGUI.SplitOnceBareCommand | AIkoStreamingGUI.py:106 | a lone command word splits into itself |
| StreamingGUI.DispatchReturnsTrueExactly | AIkoStreamingGUI.py:95-123 | True exactly when a registered handler was called in a shape it accepts; an unknown command returns False and calls nothing |
| StreamingGUI.DispatchPassesArgument | AIkoStreamingGUI.py:95-123 | "command argument" calls that command's handler with that argument |
| StreamingGUI.BlankInputRaises | AIkoStreamingGUI.py:95-123 | blank input raises IndexError |
| StreamingGUI.CommandLine.constructor | AIkoStreamingGUI.py:81-83 | the dictionary it is given |
| StreamingGUI.CommandLine.AddCommand | AIkoStreamingGUI.py:85-93 | the name maps to the new handler, replacing any earlier one |
| StreamingGUI.CommandLine.Input | AIkoStreamingGUI.py:95-123 | dispatches the split line as DispatchWords decides and leaves the dictionary unchanged |
| StreamingGUI.RegisteredCommandIsCalled | AIkoStreamingGUI.py:85-123 | a re-registered name reaches the new handler; calling it with no argument when it needs one raises TypeError |
| StreamingGUI.ReturnMessageContent | AIkoStreamingGUI.py:30-33 | a blank slot shows as "", a message as its content |
| StreamingGUI.NewestLineShowsAddedText | AIkoStreamingGUI.py:30-33 | after an add, the last line shows the new text and every other line moves up by one |
| StreamingGUI.ImageButton.constructor | AIkoStreamingGUI.py:41-46 | toggle state 1, the off image |
| StreamingGUI.ImageButton.ClickFunction | AIkoStreamingGUI.py:48-55 | a disabled button ignores clicks; an enabled one flips its state, showing the on image exactly at -1 |
| StreamingGUI.TwoClicks | AIkoStreamingGUI.py:48-55 | two clicks show on and then off; a disabled button stays off |
| IniHandler.FillMeaning | AIkoINIhandler.py:109-114 | an existing section gains exactly the missing options with their defaults, and every present value is kept |
| IniHandler.SetAllMeaning | AIkoINIhandler.py:116-120 | a new section holds exactly the defaults |
| IniHandler.MergedKeys | AIkoINIhandler.py:106-120 | the sections after the merge are those of the file plus those of the table |
| IniHandler.MergedUnlisted | AIkoINIhandler.py:106-120 | a section the table does not list is kept unchanged |
| IniHandler.MergedListed | AIkoINIhandler.py:106-120 | a section the table lists is present and holds the file's options with the table's missing ones added |
| IniHandler.MergedBySection | AIkoINIhandler.py:106-120 | the sections are those of the file plus those of the table; unlisted sections are untouched; each listed one is filled or created |
| IniHandler.DefaultsPresent | AIkoINIhandler.py:106-120 | afterwards every listed section and option is present |
| IniHandler.ExistingValuesKept | AIkoINIhandler.py:106-120 | no section or option of the file is removed or overwritten |
| IniHandler.MissingOptionsFilled | AIkoINIhandler.py:106-120 | a missing option gets its default value |
| IniHandler.FillComplete | AIkoINIhandler.py:109-114 | a section holding every default is unchanged |
| IniHandler.MergeIdempotent | AIkoINIhandler.py:106-120 | running the merge on its own result changes nothing |
| IniHandler.FreshIsMergedIntoNothing | AIkoINIhandler.py:122-127 | with no file, the result equals merging into an empty configuration |
| IniHandler.FreshIsTheTable | AIkoINIhandler.py:122-127 | with no file, exactly the listed sections exist, each holding exactly its defaults |
| IniHandler.MergeDefaults | AIkoINIhandler.py:104-127 | the nested loops compute the merge against the file, or the fresh table without one; the same code is at AikoINIhandler.py:72-93 |
| IniHandler.CurrentTableWellFormed | AIkoINIhandler.py:39-101 | the current table names each section once, and each option once per section |
| IniHandler.LegacyTableWellFormed | AikoINIhandler.py:18-67 | so does the older table |
| IniHandler.HandleIni | AIkoINIhandler.py:33-127 | the merge over the current table; all six sections are present afterwards |
| IniHandler.HandleIniLegacy | AikoINIhandler.py:12-93 | the merge over the older table; all five sections are present afterwards |
| Voice.DeviceInfo | AIkoVoice.py:44 | `[1:-1]`: the first and last lines are dropped, and nothing is kept from two lines or fewer |
| Voice.FromFirstCurlyMeaning | AIkoVoice.py:52-56 | the id copied from a line is empty exactly when the line has no '{'; otherwise it starts with '{', is a suffix of the line and has no '{' before it |
| Voice.CopyFromCurly | AIkoVoice.py:52-56 | the `found_curly` character loop copies exactly the suffix from the first '{' |
| Voice.ScanMeaning | AIkoVoice.py:50-57 | IndexError exactly when no later line mentions the device; otherwise the id part of the line just before the first line that does |
| Voice.EndpointIdMeaning | AIkoVoice.py:37-59 | "" when no line is kept; IndexError exactly when no kept line after the first mentions the device; otherwise the id from the line before the first mention |
| Voice.GetDeviceEndpointId | AIkoVoice.py:37-59 | the flag-and-accumulator loop computes the scan; the same code is at VoiceLink.py:38-60 |
| Voice.MicrophoneId | AIkoVoice.py:76-85 | the recognizer turns any scan failure into ValueError and otherwise uses the id |
| Voice.Synthesizer.constructor | AIkoVoice.py:120-150 | a failed scan falls back to the default speaker with an empty device id |
| Voice.Synthesizer.Say | AIkoVoice.py:159-173 | a missing rate or style takes the configured default; a given one is kept |
| Voice.UnknownDeviceFallsBack | AIkoVoice.py:76-150 | an unknown device name: the synthesizer falls back to the default speaker, and the recognizer refuses it with ValueError |

## Left out

- Threads, locks and `sleep` are not modelled. Each thread is one method call
  per step. `MessagePool.pause` (AIkoStreamingTools.py:242-253) only holds the
  lock, so it is left out with the locks.
- Randomness and the clock are not modelled: random choices are `:|`, and the
  time is a `now` parameter.
- I/O is outside the model:
  - the Twitch socket (`Pytwitch`), the YouTube SDK and the TCP socket;
  - the speech SDK and its SSML text;
  - the completion service with its timeout;
  - the log files and the file and directory reads;
  - the `pnputil` subprocess, whose output arrives as lines;
  - the tkinter widgets (`LiveGUI`) and every `print_to_cmdl`.
  What these produce arrives as parameters.
- IniHandler.MergeDefaults: ConfigParser's own rules are not modelled. These
  are option-name case folding, the DEFAULT section and options without a
  value. Writing the file back is not modelled either.
- IniHandler.MergeDefaults: with no file and a table that names a section
  twice, `add_section` would raise DuplicateSectionError, while the model
  keeps the last entry. Both tables are proved to name each section once.
- Lower and upper case are ASCII only. Python maps all of Unicode.
- What a handler does inside its own body is not modelled. A handler is
  described only by the call shapes it accepts.
- The members of the GUI and front-end files that depend on a version of the
  other modules not in this model are left out. These are `delete_side_prompt`,
  `check_scenario`, the three-argument `add_command`, `parse_message_list` and
  `get_reference`.
- The silence breaker, spontaneous talking and `thread_talk`'s voicing loop are
  left out: they are timers around completion calls.
- `is_empty_string` (AIkoStreamingTools.py:26-27) is written as `== ""`.
- VoiceLink.py's module-level use of the scanner (lines 68-79) leaves
  `device_id` unbound when the scan fails. It is not modelled.
- Aiko.KeywordKey: `repr` escapes for non-ASCII characters that Python
  counts as unprintable (`\x`, `\u` and `\U` forms) are not modelled. Such
  characters are kept as they are. The ASCII control characters, the
  backslash and the choice of quotes are modelled.
- StreamingGUI.CommandLine.constructor: the source keeps the caller's own
  dictionary (AIkoStreamingGUI.py:83). So `add_command` also changes the
  caller's dict, and the caller's later changes reach the command line. The
  model holds the map as a value, so this sharing is not captured.
- The keyword dictionary is a sequence of (key, text) pairs in insertion
  order with distinct keys. Only that order and the last value set for a key
  are modelled, which is all a Python dict keeps.
- Voice.MicrophoneId: the source's `try` also wraps the SDK configuration
  call, whose own failures are not modelled.
- AIko.py's `generate_gpt_completion`, `__create_log__` and `__update_log__`
  are not modelled: they call the completion service or write log files. The
  completion text is a parameter of `Interact`.

## Findings

| source | as written | input that shows it | evidently intended | confidence | as-written member | corrected member |
|---|---|---|---|---|---|---|
| Streamlab.py:209-210 | `is_empty` looks only at the first and last slots, so `pick_message` returns "" while messages wait in the middle slots | add x, add y, then a pick that takes y: x sits in slot 8 with both ends blank, and every pick returns "" until another chat message is added | a scan of every slot, as in AIkoStreamingTools.py:187-191 | not executed | Streamlab.LegacyPoolStrandsMessage | StreamingTools.PickDeliversWhenPending |
