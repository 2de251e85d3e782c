# Player-piano in Dafny

Player-piano drives a rail-mounted "hand" of seventeen solenoids over a
piano keyboard: nine white-key solenoids on one row and eight black-key
solenoids on the row above. Scores are compiled into *pcode*, a line-based
command format:

- `s` starts the file and `e` ends it;
- `h s0 p<position> t<time> l<longevity>` moves the hand;
- `d s<hand> n<chord> f<force> t<time> l<longevity>` deploys solenoids. The
  chord digits name solenoids in a base-17 or base-18 alphabet.

The pcode is then decoded and replayed on a text picture of the keyboard.
This project models the integer, list and string logic of that pipeline and
proves what each piece promises.

| module (file) | models |
|---|---|
| `Keys` (key.dfy) | the guarded `Key` constructor |
| `Solenoids` (solenoids.dfy) | `check_key_count` and the 129-entry MIDI-to-window table of `SolenoidIndex` |
| `Alphabets` (constants.dfy) | the base-18 digits and step letters of `constants.py` and `converter/constants.py` |
| `Playable`, `Optimize` | `PlayableNote` chord narrowing and the `new_point` predicate |
| `LegacyParse`, `LegacyTable`, `LegacyTableConfig`, `LegacyGroup`, `LegacyEmit`, `LegacyFinding` | the passes of the legacy compiler `Old/converter.py`: hand selection, key table, token parsing, grouping, chord columns and pcode writing |
| `Chords`, `Decode`, `PcodeDecode`, `RunningSums`, `PcodeRoundTrip` | the three pcode decoders, the running-sum retiming, and the parse-back of written lines |
| `Frame`, `Replay` | `PianoFrame`, the keyboard picture, and `FrameList`, the discrete-event replay |
| `MusicXml`, `ProcessXml`, `AudioTest` | `pitch_to_midi` and the note walk of `musicxml.py`; tick tagging and tempo lookup of `converter/procsss_xml.py`; note pairing of `Old/audioTest.py` |
| `Common`, `StableSort` | Python semantics the code relies on: exceptions as `Result`, negative indexing, `str.split`/`join`, `int()`/`str()`, `list.index` and the stable `list.sort` |

State that the source mutates in place is modelled that way:

- `PianoFrame`, `FrameList`, `CommandList`, `PlayableNote`, `TempoList`,
  `NoteList` and the constants holder are classes whose methods assign their
  fields;
- their loops are `while`/`for` loops with invariants.

Each such method is proved against a specification function, and the lemmas
state what those functions mean. An exception that the source raises
(ValueError, IndexError, TypeError, AttributeError, or `sys.exit`) is an
`Err` result, never a precondition.

Two behaviours are modelled as the source has them:

- `solenoids.py:41` computes the first key's note offset from its step letter
  (`ord(step) - ord("A")`), while the loop treats that offset as a semitone
  position. `Solenoids.StepOffset` keeps that reading, and `Solenoids.BuildIndex`
  uses it; the second row of "## Findings" sets out the consequence and the
  corrected offset.
- `frame.py:261-262` only rebinds a loop variable. `Replay.FrameList.MoveHand`
  therefore queues the kinematic times unshifted.

## Model

| member | source | states |
|---|---|---|
| Keys.NewKey | key.py:4-18 | the constructor succeeds exactly when midi 0..128, octave 0..8, step in A..G and alter -1..1; otherwise ValueError; on success the four fields are the arguments |
| Keys.NewKeyValid | key.py:6-13 | a key is returned exactly when its fields satisfy the validity predicate the key map relies on |
| Solenoids.CheckKeyCount | solenoids.py:8-18 | true exactly for 88, 76, 61 and 49 keys |
| Solenoids.OffsetMod | solenoids.py:86-88 | the step-by-step offset (increment, wrap 12 to 0) equals (first + k) mod 12 |
| Solenoids.WindowAt | solenoids.py:43-84 | the window in force at each key has 1 to 9 slots, all of them positions while at least 14 keys remain |
| Solenoids.Entry | solenoids.py:46-75 | a white-offset key's entry is the whole window on the white row; a black-offset key's is the window without its first slot, on the black row |
| Solenoids.UpdateWindow | solenoids.py:52-58 | a white key's window update is WhiteStep: push front + 1 (capped at 9) while 15 or more keys remain, else drop the last slot and shift in None |
| Solenoids.AddKey | solenoids.py:46-88 | one loop pass: the entry by row as above, and the next window |
| Solenoids.AddKeys | solenoids.py:45-88 | the key loop appends exactly one entry per key, each the k-th Entry, after the leading entries, which it keeps |
| Solenoids.AsWrittenE1OnBlackRow | solenoids.py:41 | as written, the white first key E1 of the 76-key keyboard has step offset 4 and its entry is on the black row |
| Solenoids.CorrectedRowsFollowKeyboard | solenoids.py:41-88 | with the semitone offset of the step letter, every key's entry is on the white row exactly when its MIDI number is a white key |
| Solenoids.BuildIndex | solenoids.py:31-92 | ValueError exactly for an unsupported key count; otherwise None below the first key, the keys' entries, and None up to length 129 (longer when the keys run past MIDI 128) |
| Solenoids.KeyStep | solenoids.py:45-88 | from key k to k+1 the window takes the white/black update and the offset steps mod 12 |
| Solenoids.WindowBeforeCutoff | solenoids.py:52-55 | while 15 or more keys remain, the window is the descending run of the most recent positions from the number of white keys passed, at most nine |
| Solenoids.WindowAfterCutoff | solenoids.py:56-58 | after the cutoff each white key shifts one None in at the front and drops the last slot, so the length is unchanged |
| Alphabets.Base18 | converter/constants.py:64-75 | 18 symbols: '0'..'9' at 0..9, 'A'..'H' at 10..17 |
| Alphabets.StepLetters | converter/constants.py:53-61 | seven one-letter strings 'A'..'G' |
| Alphabets.Settings.GenerateBase18 | constants.py:38-44 | the stored alphabet is the eighteen symbols |
| Alphabets.Settings.GenerateStepList | constants.py:46-50 | the stored step list is A..G |
| Alphabets.Settings.constructor | constants.py:6-36 | the configured values are stored (the YAML read becomes arguments) and both lists generated |
| Alphabets.Base18Distinct | constants.py:38-44 | the symbols are pairwise distinct, so `index` inverts lookup |
| Alphabets.Base18Sentinel | test/decode.py:116 | the last symbol is 'H' and occurs nowhere else: the chord padding of the test decoder |
| Alphabets.Base17IsPrefix | pcode_decode.py:1-19 | the base-17 alphabet is the base-18 one without 'H' |
| Playable.PlayableNote.constructor | converter/playable.py:13-19 | the pitch list is [pitch] and the positions are those that play it; the other fields are the arguments |
| Playable.PlayableNote.AddPitch | converter/playable.py:21-33 | the pitch is always appended; the positions become old ∩ playable(new) and never grow; returns 0 iff any remain, else 1; other fields unchanged |
| Playable.ChordLocationsMembership | converter/playable.py:21-33 | a position remains after a sequence of add_pitch calls iff it plays every pitch of the chord |
| Playable.ChordLocationsShrink | converter/playable.py:26-28 | adding a pitch never adds a position |
| Optimize.NewPoint | converter/optimize.py:3-10 | truthy exactly when more than one location, a non-empty group and remaining > 0; the falsy value is Python's (False or 0) |
| LegacyParse.Handedness | Old/converter.py:271-276 | "R" gives 0, "L" gives 1, anything else exits |
| LegacyParse.ParseTokenMeaning | Old/converter.py:344-370 | the duration is the text before '/', parsed; sharp iff the key text holds 'S'; rest iff it holds 'R'; the place less the right hand's sharp shift is the index of the stripped key name |
| LegacyParse.ParseTokens | Old/converter.py:344-370 | fails with the first failing token's error; otherwise one parsed value per token in order, with sharp, rest, values and allValues kept in step |
| LegacyParse.ParseFormatToken | Old/converter.py:345-366 | a token written as "<type>/<key>" parses back to its type and key, the place one higher for a right-hand sharp |
| LegacyTable.InitialTable | Old/converter.py:46-155 | the initial `notes` entry of key i lists i - j in slot j while that lies in 0..44, and the rest marker's entry is 1..43 |
| LegacyTable.StartIndex | Old/converter.py:161-224 | the index of the start key among `positions`, no earlier name equal to it |
| LegacyTable.MapKeys | Old/converter.py:288-317 | names before the start key keep the all-None window; from it on each name pushes its index onto the 8-slot window, and each entry is a copy; the loop stops at the first name once the key count is used up |
| LegacyTable.ClearSlots | Old/converter.py:328-331 | slots 0..endOffset become None, the rest are kept |
| LegacyTable.CorrectEnd | Old/converter.py:319-333 | from seven names before the stop each entry loses one more leading slot, up to all eight, with Python's negative indices when the stop is early |
| LegacyTable.BuildTable | Old/converter.py:288-333 | the table is the mapped entries with the end correction at the stop index |
| LegacyTable.SlotPosition | Old/converter.py:288-333 | slot j of key k's entry only ever names hand position k - j |
| LegacyTableConfig.ConfiguredStop | Old/converter.py:223-224 | with 76 keys from E1 the mapping stops at index 49 |
| LegacyTableConfig.UsedWeek | Old/converter.py:296-305 | seven consecutive names from the start key use twelve keys (B and E count one, the others two) |
| LegacyTableConfig.ConfiguredE1 | Old/converter.py:288-333 | in the configured table E1 is reachable only from position 4 |
| LegacyTableConfig.ConfiguredC7 | Old/converter.py:319-333 | in the configured table C7 is reachable only from positions 37 to 41 |
| LegacyGroup.Intersect | Old/converter.py:451 | the set intersection of two entries, without repeats |
| LegacyGroup.PyMax | Old/converter.py:473 | `max`: ValueError on empty, TypeError when None is mixed with numbers, else a greatest element |
| LegacyGroup.PyMin | Old/converter.py:474 | `min`, with the same errors, else a least element |
| LegacyGroup.PySorted | Old/converter.py:475 | `sorted`: TypeError when not orderable, else a sorted permutation |
| LegacyGroup.GroupsFlatten | Old/converter.py:439-511 | the groups are the notes, in order, cut into non-empty runs |
| LegacyGroup.GroupsGreedy | Old/converter.py:443-468 | a new group starts exactly when the next note shares no position with the running set: every group is cohesive and maximal |
| LegacyGroup.GroupsPrefix | Old/converter.py:439-503 | later notes only extend the last group or add new ones |
| LegacyGroup.FailedStep | Old/converter.py:456-476 | a note that makes the pass fail is off the key table, or closes a group that cannot be ordered |
| LegacyGroup.Close | Old/converter.py:473-476 | top, bottom and the sorted pool of the group; TypeError exactly when the group's positions are not orderable |
| LegacyGroup.FollowMin | Old/converter.py:459-461 | spots tracks the running minimum, and the drop is written into the previous note's changes entry |
| LegacyGroup.FollowMax | Old/converter.py:463-465 | locate tracks the running maximum, and the rise is written into the previous note's adjust entry |
| LegacyGroup.JoinNote | Old/converter.py:451-468 | a joining note keeps the open group's bookkeeping true of the group plus the note |
| LegacyGroup.StartGroup | Old/converter.py:443-449 | a note opening a group is its only place, minimum and maximum, and its entry is the pool |
| LegacyGroup.Step | Old/converter.py:439-503 | one loop iteration: IndexError off the table, TypeError closing an unorderable group, else the state tracks the groups plus the note |
| LegacyGroup.Finish | Old/converter.py:505-511 | the last group is closed like the others |
| LegacyGroup.GroupNotes | Old/converter.py:439-511 | ValueError with no notes; an error when a place is off the table, and with notes only IndexError or TypeError; otherwise success iff every greedy group is orderable, and the result describes those groups |
| LegacyEmit.ChordDigitMeaning | Old/converter.py:874-889 | the digit less 1 and the sharp shift is the slot of the hand position in the key's entry (ValueError when absent); a rest's digit is the shift; the digit is a base-17 symbol |
| LegacyEmit.BuildChords | Old/converter.py:874-889 | the loop builds the chord columns of all notes, or stops at the first error |
| LegacyEmit.ColumnsShape | Old/converter.py:889 | every column is one alphabet symbol followed by "0000" |
| LegacyEmit.ChordColumnsError | Old/converter.py:874-889 | once a note fails, the whole loop fails with its error |
| LegacyEmit.WritePcode | Old/converter.py:897-934 | IndexError exactly when a deploy or move list is shorter than the one the loop runs over; otherwise "s\n", one line per deploy, one per move, then "e" |
| LegacyEmit.DeployChunkAt | Old/converter.py:900-913 | deploy x's chunk is `d s<hand> n<chord> f<force> t<t> l<l>` and a newline |
| LegacyEmit.MoveChunkAt | Old/converter.py:918-929 | move x's chunk is `h s0 p<pos> t<t> l<l>` and a newline |
| LegacyFinding.AsWrittenJoinsE1C7 | Old/converter.py:451-476 | as written, E1 then C7 form one group whose only shared position is None |
| LegacyFinding.CorrectedSplitsE1C7 | Old/converter.py:451-456 | comparing real positions only, E1 and C7 form two groups |
| LegacyFinding.CorrectedGroupsPlayable | Old/converter.py:439-511 | comparing real positions only, every group has a hand position reaching all its notes |
| Chords.DecodeChord | decode.py:56-64 | the chord loop skips the padding and appends each other character's alphabet index |
| Chords.ChordValuesError | decode.py:60-62 | decoding fails, with ValueError, exactly when a character is neither padding nor in the alphabet |
| Chords.ChordValuesRange | pcode_decode.py:59-65 | every decoded value is an alphabet index whose symbol is in the chord and is not the padding |
| Chords.DecodeEncode | decode.py:56-64 | decoding inverts encoding over an alphabet of distinct symbols |
| Chords.PaddingIgnored | test/decode.py:115-117 | trailing padding decodes to nothing |
| Decode.FindCommandType | test/decode.py:46-60 | s, h, d and e map to the four types, whose tag is the character; anything else raises ValueError |
| Decode.CommandOf | decode.py:29-38 | an empty line raises IndexError; the kind is move iff the tag is 'h' and deploy iff 'd'; the test dialect rejects unknown tags |
| Decode.DeployLocationsRange | decode.py:56-64 | decoded solenoids lie in 1..17 with padding "0", and in 0..16 with padding "H" |
| Decode.FilterStep | decode.py:82-90 | a new command lands in the list of its kind and nowhere else |
| Decode.RetimedInverse | decode.py:92-102 | retiming changes only the times, and the differences of the new times are the old ones |
| Decode.RetimedSorted | decode.py:92-105 | with non-negative times, sorting a retimed stream leaves it in file order |
| Decode.InOrderMerge | decode.py:104-107 | the merged list is a sorted permutation of moves and plays; on equal times moves precede plays, each in its own order |
| Decode.CommandList.constructor | decode.py:71-77 | the text split on newlines, three empty lists |
| Decode.CommandList.SortCommands | decode.py:82-90 | deploys appended to the play list and moves to the move list, in file order; a raising line stops the walk there |
| Decode.CommandList.ConvertDuration | decode.py:92-107 | each stream is retimed and sorted by time; the merged list is moves then plays, sorted by time |
| Decode.RunningTimes | decode.py:96-102 | the in-place running-sum loop equals the retimed stream |
| Decode.Open | test/decode.py:125-162 | fails exactly when a line fails, with the exception of the first failing line; otherwise the lists are the retimed, sorted streams and their merge |
| PcodeDecode.SortedCommandsList | pcode_decode.py:22-89 | the function's result: moves and deploys converted, retimed and sorted, kept as two lists |
| PcodeDecode.Partition | pcode_decode.py:39-44 | 'd' lines go to one list and 'h' lines to another, others dropped |
| PcodeDecode.ConvertDeploys | pcode_decode.py:46-65 | the first conversion error, or the deploys with times replaced by running sums |
| PcodeDecode.ConvertMoves | pcode_decode.py:67-77 | the first conversion error, or the moves with times replaced by running sums |
| PcodeDecode.SortedCommandsOrdered | pcode_decode.py:83-89 | each list is sorted by time and a permutation of its retimed stream |
| PcodeDecode.RetimeDeploysInverse | pcode_decode.py:55-57 | retiming changes only the time field, and differences give back the relative times |
| PcodeDecode.RetimeMovesInverse | pcode_decode.py:75-77 | the same for moves |
| PcodeDecode.SortedCommandsKeys | pcode_decode.py:59-65 | every decoded deploy key is in 1..16 |
| PcodeDecode.NonnegativeInFileOrder | pcode_decode.py:83-85 | with non-negative relative times, each sorted list is its stream in file order |
| RunningSums.DifferencesOfSums | decode.py:92-102 | differences of running sums give back the relative times |
| RunningSums.SumsOfDifferences | decode.py:92-102 | running sums of differences give back the absolute times |
| RunningSums.SumsNondecreasing | decode.py:92-102 | non-negative relative times give nondecreasing absolute times |
| PcodeRoundTrip.DeployLineParses | decode.py:48-64 | a deploy line as the legacy writer emits it parses back to its hand, force, time, longevity and solenoid |
| PcodeRoundTrip.MoveLineParses | decode.py:40-46 | a written move line parses back to hand 0 and its position, time and longevity, in either decoder |
| PcodeRoundTrip.DeployOfFields | decode.py:48-54 | deploy parsing reads tokens 1, 3, 4 and 5 and the chord of token 2 |
| PcodeRoundTrip.MoveOfFields | decode.py:40-46 | move parsing reads tokens 1 to 4 |
| PcodeRoundTrip.LinesHaveNoNewline | decode.py:71-73 | no written deploy or move line holds a newline |
| PcodeRoundTrip.ColumnOfDigit | Old/converter.py:889 | every chord column the converter builds is the column of one base-17 digit |
| PcodeRoundTrip.WrittenFileParses | Old/converter.py:897-934 | the whole written file, split on newlines and read by decode.py, is the start marker, one deploy per deploy line (its hand, force, time, longevity and chord digit), one move per move line, then the end marker |
| Frame.Setup | frame.py:150-164 | white keys and white solenoids are the even columns; black solenoids are the odd columns; black keys are the counter-selected odd columns, last popped |
| Frame.BlackKeysMembers | frame.py:150-164 | a black key column is odd, at most 87, with counter reading neither 2 nor 6 |
| Frame.KeysOfKeyboard | frame.py:150-164 | 45 white and 31 black keys: the 76 keys |
| Frame.BlackKeyColumnsCount | frame.py:151-159 | five of every seven odd columns hold black keys |
| Frame.MarkKeys | frame.py:171-175 | the key mark is written at each listed column and nowhere else |
| Frame.PianoFrame.constructor | frame.py:133-148 | empty slots, position 0, time 0, the setup lists and the default picture |
| Frame.PianoFrame.DefaultPiano | frame.py:166-175 | three blank lines, then white key marks on the bottom line and black on the middle |
| Frame.PianoFrame.PopulateHand | frame.py:177-188 | the state after populate_hand is the Populated picture, or the IndexError it raises |
| Frame.PopulateSucceeds | frame.py:177-188 | populate_hand succeeds exactly for locations -45..36 other than -8..-1 |
| Frame.PopulateSlots | frame.py:180-188 | slots 0..8 take white_solenoid_index[loc..loc+9] and slots 9..16 black_solenoid_index[loc..loc+8] |
| Frame.PopulateLines | frame.py:182-187 | the middle line shows a closed solenoid at every white slot's column, the top line at every black one's |
| Frame.PopulateKeeps | frame.py:177-188 | the hand moves to the location; the bottom line and the time are kept |
| Frame.PianoFrame.ClearHand | frame.py:190-196 | each slot's column is blanked on the top line if odd, on the middle line if even, then all slots are emptied |
| Frame.ClearSucceeds | frame.py:190-196 | clear_hand succeeds exactly when every slot holds a line position: TypeError for an empty slot, IndexError out of range |
| Frame.ClearBlanks | frame.py:191-195 | clearing a populated hand blanks every slot's column on its row |
| Frame.PianoFrame.Actuate | frame.py:198-211 | the state after actuate is the Actuated picture, or the error it raises |
| Frame.ActuateSucceeds | frame.py:198-211 | with non-negative indices, actuate succeeds iff all are below 17, else ValueError |
| Frame.ActuateKeeps | frame.py:198-211 | slots and position kept and the time stamped; white indices leave the top line alone and black ones the bottom line |
| Frame.ActuateDraws | frame.py:200-208 | each fired white solenoid shows open over a depressed key; each black one shows open over a depressed key or a blank |
| Frame.PianoFrame.Retract | frame.py:218-229 | the state after retract is the Retracted picture, or the error it raises |
| Frame.RetractSucceeds | frame.py:218-229 | retract succeeds exactly when every slot holds a line position |
| Frame.RetractDrawsWhite | frame.py:220-222 | every white slot's column shows a closed solenoid over an undepressed key |
| Frame.RetractDrawsBlack | frame.py:223-228 | every black slot's column shows a closed solenoid over its key mark, or over a blank where the keyboard has no black key |
| Frame.PianoFrame.ShiftHand | frame.py:213-216 | clear, populate at position + shift, stamp the time |
| Frame.ShiftMeaning | frame.py:213-216 | on a populated hand the shift succeeds iff the new position is in reach (else IndexError), leaving a populated hand there |
| Frame.ShiftKeeps | frame.py:213-216 | the position becomes old + k and the time t |
| Replay.StepRetract | frame.py:270-274 | a due retract fires at its own time, keeps the commands, queue and hand position, and adds one frame |
| Replay.StepGlide | frame.py:276-281 | a due key step pops exactly one time and moves the hand by the direction (IndexError out of reach), adding one frame |
| Replay.StepDeploy | frame.py:283-292 | a deploy actuates at its time, schedules the retract at duration + longevity and captures one frame; ValueError past solenoid 16 |
| Replay.StepMove | frame.py:294-298 | a move captures no frame and queues the kinematic times in the target's direction |
| Replay.StepMarker | frame.py:268 | a start or end marker raises AttributeError |
| Replay.SignMeaning | frame.py:264 | the direction is -1, 0 or 1 with the distance's sign |
| Replay.FlushMeaning | frame.py:300-307 | the flush leaves nothing queued and no retract pending |
| Replay.ReplayMeaning | frame.py:266-307 | a finished replay played every command; queue empty, no retract pending, the old frames first, at least one frame per deploy |
| Replay.ReplayErrors | frame.py:266-307 | a replay fails only with AttributeError, IndexError or ValueError |
| Replay.FrameList.constructor | frame.py:241-251 | a new piano populated at the initial position, no frames, nothing queued |
| Replay.FrameList.CaptureFrame | frame.py:253-254 | a copy of the picture joins the frames |
| Replay.FrameList.MoveHand | frame.py:256-264 | the queue is the kinematic times, unshifted, and the direction the distance's sign |
| Replay.FrameList.ProcessCommandList | frame.py:266-307 | the state after the loop is the Replayed value (or its error), with the command list emptied |
| MusicXml.PitchToMidiMeaning | musicxml.py:192-203 | the number is 12 per octave from octave -1, plus the letter's semitone, plus alter |
| MusicXml.ReferencePitches | musicxml.py:192-203 | C4 is 60, A4 is 69, A0 is 21 |
| MusicXml.PitchShifts | musicxml.py:194-203 | one octave up adds 12, and alter is added linearly |
| MusicXml.StepsInOctave | musicxml.py:193-203 | a letter stays inside its octave, and different letters give different numbers |
| MusicXml.FindStaffCount | musicxml.py:77-87 | the number of distinct staff texts, or 1 when there are none |
| MusicXml.FindVelocity | musicxml.py:111-122 | the volume of the first part with the id, or -1 when there is none |
| MusicXml.VisitMeaning | musicxml.py:134-187 | chord and non-chord note start times, rest advance, backup rewind; the note goes to list staff-1 |
| MusicXml.WalkMeaning | musicxml.py:134-187 | the tick moves by the net advance, lists only grow, one note per pitched element |
| MusicXml.NoteListsMeaning | musicxml.py:124-189 | one list per staff, labelled with the part and staff number, together holding one note per pitched element |
| MusicXml.GenerateNoteList | musicxml.py:124-189 | the method's lists are the NoteLists result, or the walk's error |
| ProcessXml.TempoList.Append | converter/procsss_xml.py:32-33 | the entry is added at the end |
| ProcessXml.TempoList.TempoAtTick | converter/procsss_xml.py:35-45 | returns ValueAt of the old list and leaves the list stably sorted by tick |
| ProcessXml.ValueAtMeaning | converter/procsss_xml.py:35-42 | IndexError iff empty; otherwise the latest entry at or before the tick in sorted order, or the last entry when none qualifies |
| ProcessXml.EqualTicksLastWins | converter/procsss_xml.py:35-45 | of the entries sharing the tick the value comes from, it is the one appended last (the sort is stable) |
| ProcessXml.LatestWins | converter/procsss_xml.py:32-42 | an entry appended with the latest tick is the value from its tick on |
| ProcessXml.TempoList.SortByTick | converter/procsss_xml.py:44-45 | sorted by tick, same multiset, stable |
| ProcessXml.TempoList.Combine | converter/procsss_xml.py:47-49 | concatenation with repeats removed |
| ProcessXml.DedupeMembers | converter/procsss_xml.py:49 | the same members, no repeats, no longer |
| ProcessXml.DedupeOrder | converter/procsss_xml.py:49 | kept entries are in the order of their first occurrence |
| ProcessXml.DedupeDistinct | converter/procsss_xml.py:49 | a list without repeats is unchanged |
| ProcessXml.FindNoteDuration | converter/procsss_xml.py:202-211 | the loop returns LastDuration |
| ProcessXml.LastDurationMeaning | converter/procsss_xml.py:202-211 | the last duration item, or 0 when there is none |
| ProcessXml.TagNoteMeaning | converter/procsss_xml.py:214-234 | a chord note keeps the tick and previous and retags the last entry at tick - previous (IndexError on an empty list); otherwise the tick moves by the duration |
| ProcessXml.TagElementsMeaning | converter/procsss_xml.py:237-262 | one entry per element in order, earlier entries kept, the tick moved by the net movement |
| ProcessXml.TagElementsTicks | converter/procsss_xml.py:245-262 | each non-chord element is tagged with the tick reached by the elements before it |
| ProcessXml.TagMeasuresMeaning | converter/procsss_xml.py:265-274 | measures chain, each starting where the last ended |
| ProcessXml.TagPartMeaning | converter/procsss_xml.py:265-274 | the part's list holds exactly its elements, in order |
| ProcessXml.TickTagNote | converter/procsss_xml.py:214-234 | the method's result is TagNote |
| ProcessXml.TickTagMeasure | converter/procsss_xml.py:237-262 | the method's result is TagMeasure |
| ProcessXml.TickTagPart | converter/procsss_xml.py:265-274 | the method's result is TagPart |
| StableSort.SortProps | converter/procsss_xml.py:45 | `list.sort(key=...)` is sorted, a permutation and stable per key |
| StableSort.SortSorted | decode.py:104-105 | sorting an ordered list changes nothing |
| AudioTest.SetDuration | Old/audioTest.py:30-31 | only the duration changes |
| AudioTest.FirstWithMeaning | Old/audioTest.py:59-60 | the first pending note with the number, or none exactly when no note has it |
| AudioTest.FoundLengths | Old/audioTest.py:54-68 | the pending list shrinks by one iff the note was pending and grows by one iff it was not; the note list keeps its notes and gains at most one |
| AudioTest.FoundAfterSilence | Old/audioTest.py:54-57 | with nothing pending and a positive gap a silence Note(previous, -1, gap, 0) is recorded |
| AudioTest.FoundCloses | Old/audioTest.py:59-66 | the first matching pending note leaves pending and joins the notes with duration current - start |
| AudioTest.FoundOpens | Old/audioTest.py:67-68 | otherwise Note(current, midi, 0, velocity) is appended to pending |
| AudioTest.FoundKeepsPending | Old/audioTest.py:52-68 | pending notes stay durationless with distinct numbers |
| AudioTest.NoteList.FindNote | Old/audioTest.py:52-68 | the lists after the call are Found of the old lists |

## Left out

- Floating point: the kinematic model `kinematics.timeDistanceList` is not part of this model. It is a function parameter returning real times. `travel_time`, the score table (Old/converter.py:385-395) and `division_ms` are not modelled.
- Decimal values are `real`; Decimal's context rounding is not modelled.
- XML parsing (lxml, xsdata) is replaced by the values read from the tree: element kinds, durations, staffs, pitches and volumes. A `.text` of None is not modelled.
- File reads and writes become text or line inputs and chunk outputs. The YAML and configparser reads become constructor arguments.
- ProcessXml.TempoList: also stands for `DynamicList` (converter/procsss_xml.py:52-73), whose code is the same with renamed fields.
- MusicXml.PitchToMidiMeaning: also stands for `pitch_to_midi` in note.py (lines 72-83), which is the same function, so it is not declared twice.
- Common.ParseInt: accepts an optional sign and decimal digits. Python's `int()` also accepts surrounding whitespace and underscores; those are not modelled.
- The cluster optimizer (`PlayableNoteList`, `find_moves`, ...) is not part of this model.
- `playable_for_pitch` is not part of this model; `PlayableNote` takes it as a function-valued field.
- The move assignment and timing pass of Old/converter.py (681-865) has statements with no effect and float costs; it is not modelled. The emitter takes its output lists as inputs.
- Object identity: notes, commands and frames are values. Aliasing (audioTest's `set_duration` on a stored note, `deepcopy` of frames) is captured only as far as each object lives in one list at a time.
- LegacyGroup.GroupNotes: requires non-negative places, as token parsing produces them; Python would read a negative place from the end of the table.
- Frame.ActuateSucceeds: characterises success only for non-negative indices. Negative indices read from the end of the slot list and are modelled in `Actuated`, but the lemma does not describe them.
- Replay.FlushMeaning: a negative retract delay is never fired; the no-pending-retract conclusion of ReplayMeaning assumes non-negative delays.
- Float conversions: the emitter's move positions are integers, so `str(int(movePosition[x]))` at Old/converter.py:921 (truncation toward zero of a float) is not modelled; the replay divides a move's position by `KEY_WIDTH` (frame.py:296) in exact `real` arithmetic, not in floating point.
- Terminal drawing, pacing, audio synthesis, MIDI libraries and driver scripts are outside the modelled core.

## Findings

| source | as written | input that shows it | evidently intended | confidence | as-written member | corrected member |
|---|---|---|---|---|---|---|
| Old/converter.py:451-476 | key-table entries are compared as Python sets that include None, so two notes that share no hand position still share None and land in one group; the group's top and bottom become None | the configured table (76 keys from E1) with the notes E1 then C7 | only real hand positions are intersected, so E1 and C7 form two groups, and every group has a hand position that reaches all of its notes | not executed | LegacyFinding.AsWrittenJoinsE1C7 | LegacyFinding.CorrectedSplitsE1C7, LegacyFinding.CorrectedGroupsPlayable |
| solenoids.py:41 | the first key's offset is its letter's distance from A (`ord(step) - ord("A")`), while the loop reads offsets as semitones above A (white at 0, 2, 3, 5, 7, 8, 10) | 76 keys from E1: offset 4 makes E1 a black key; from C (61 or 49 keys) offset 2 makes C# white and D black | the offset is the step letter's semitones above A, so every key lands on the row of its colour | not executed | Solenoids.AsWrittenE1OnBlackRow | Solenoids.CorrectedRowsFollowKeyboard |
