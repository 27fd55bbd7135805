# pytest-pvcr record/replay engine, modelled in Dafny

pytest-pvcr replaces `subprocess.run` in tests with recorded results.
The first run executes the real command and stores its arguments, stdin, stdout, stderr, return code and duration in a per-test recordings file.
Later runs replay the stored result instead of executing again.

This project models the engine behind that:

- `RecordingModel` (recording.dfy) holds the `Recording` value.
  Its identity is args, stdin and iteration; its payload is stdout, stderr, rc and duration.
  It also holds the sparse persisted form (`Entry`, one presence slot per key) with `Encode`/`Decode`, the match predicate, and the `Recording` class with its mutable fields.
- `Fuzzy` (fuzzy.dfy) specifies the fuzzy-matcher compiler.
  The regex engine is abstract.
  A zero-group pattern is a literal, and its `sub` replaces every non-overlapping occurrence.
  A grouped pattern is a full-match oracle that reports group spans and `lastindex`.
- `Store` (store.dfy) models the `Recordings` class: history, record mode, fuzzy matchers and the backing file.
  The file is either missing or a document whose `recordings` list may be missing.
  Alongside the class are the value-level specifications of `load` (`Lookup`) and `write` (`WriteFile`), with lemmas relating them.
- `Wrapper` (wrapper.dfy) models wrapper.py.
  `SubprocessWrapper.Run` chooses between replay, block and execute.
  `ResolveAttribute` models the metaclass's attribute lookup.
  The real `subprocess.run` and `time.sleep` are a `Host` object.
  `Host` logs every call and returns, for the n-th call, `execute(n, invocation)`, the elapsed microseconds included.

`block_unrecorded` is read by wrapper.py but not defined in recordings.py.
It is modelled as `Recordings.blockUnrecorded`, a constant fixed at construction: mode "once" and the file already existed.
This follows tests/test_recordings.py:165-182.

## Model

| member | source | states |
|---|---|---|
| `RecordingModel.Matches` | src/pytest_pvcr/recordings.py:114-126 | a match needs equal args and stdin; with an iteration given, it is a wildcard match whose iteration is also equal |
| `RecordingModel.SameRecording` | src/pytest_pvcr/recordings.py:128-137 | two recordings are equal iff their args, stdin and iteration are equal |
| `RecordingModel.DecodeKeys` | src/pytest_pvcr/recordings.py:71-98 | `from_encoded_dict` takes every present key's value; a missing key gives args `[]`, iteration 1 and None for the rest |
| `RecordingModel.Encode` | src/pytest_pvcr/recordings.py:47-69 | args, rc, duration and iteration are always written with the field's value; stdin, stdout and stderr are present exactly when the field is not None |
| `RecordingModel.DecodeEncode` | src/pytest_pvcr/recordings.py:53-98 | `from_encoded_dict(to_encoded_dict(r))` restores all seven data fields |
| `RecordingModel.EncodeDecode` | src/pytest_pvcr/recordings.py:53-98 | re-encoding a decoded entry gives the same entry iff the entry has the canonical shape (fixed keys present, optional keys present only with non-null values) |
| `RecordingModel.DecodeEmpty` | src/pytest_pvcr/recordings.py:81-98 | `from_encoded_dict({})` has args `[]`, iteration 1 and every other field None |
| `RecordingModel.SameRecordingIsIdentity` | src/pytest_pvcr/recordings.py:114-137 | `==` is reflexive, symmetric and transitive, holds iff (args, stdin, iteration) agree, and is unaffected by rc, stdout, stderr and duration |
| `RecordingModel.Recording.constructor` | src/pytest_pvcr/recordings.py:27-45 | every field takes the given value; the omitted ones default to None, iteration 1 and not saved |
| `RecordingModel.Recording.ToEncodedDict` | src/pytest_pvcr/recordings.py:47-69 | the dictionary built key by key equals `Encode` of the recording's fields |
| `RecordingModel.Recording.FromEncodedDict` | src/pytest_pvcr/recordings.py:71-98 | a fresh, unsaved recording whose fields are `Decode` of the entry |
| `RecordingModel.Recording.Copy` | src/pytest_pvcr/recordings.py:100-112 | the seven data fields become the other recording's; `saved` is unchanged |
| `RecordingModel.Recording.Match` | src/pytest_pvcr/recordings.py:114-126 | true iff args and stdin are equal and the iteration is absent or equal |
| `RecordingModel.Recording.Equals` | src/pytest_pvcr/recordings.py:128-137 | true iff args, stdin and iteration are equal |
| `Fuzzy.ReplaceAll` | src/pytest_pvcr/recordings.py:186-188 | `re.sub` with the empty pattern adds one placeholder at each of the `len(s) + 1` positions; a pattern no longer than the placeholder never shortens the argument |
| `Fuzzy.Join` | src/pytest_pvcr/recordings.py:195 | `sep.join(parts)` is empty for no parts, starts with the first part and ends with the last |
| `Fuzzy.Wrap` | src/pytest_pvcr/recordings.py:197-203 | the joined text with a placeholder added in front and/or at the back starts with the placeholder or the text and ends with the placeholder or the text, accordingly |
| `Fuzzy.GroupedRewriteFront` | src/pytest_pvcr/recordings.py:194-199 | a grouped rewrite starts with a placeholder when `start(1) > 0`, and with group 1's text otherwise |
| `Fuzzy.GroupedRewriteBackShort` | src/pytest_pvcr/recordings.py:194-203 | a grouped rewrite ends with a placeholder when `end(lastindex)` is before the end of the argument |
| `Fuzzy.ApplyPattern` | src/pytest_pvcr/recordings.py:182-203 | a grouped pattern that does not fully match, and a literal longer than the argument, leave it unchanged |
| `Fuzzy.ApplyMatcher` | src/pytest_pvcr/recordings.py:182-203 | the body of the inner loop computes exactly the one-matcher rewrite `ApplyPattern` |
| `Fuzzy.NormalizeOne` | src/pytest_pvcr/recordings.py:181-203 | with no matchers an argument is unchanged; with one matcher it is that matcher's rewrite |
| `Fuzzy.GroupTexts` | src/pytest_pvcr/recordings.py:195 | one text per group, each the argument's slice at that group's span |
| `Fuzzy.NormalizeAll` | src/pytest_pvcr/recordings.py:177-207 | the output has the input's length, and element i is argument i rewritten by every matcher in order |
| `Fuzzy.NormalizeAllNoPatterns` | src/pytest_pvcr/recordings.py:177-207 | with no matchers every argument is unchanged |
| `Fuzzy.NormalizeConcat` | src/pytest_pvcr/recordings.py:181-203 | applying `ps1 + ps2` is applying `ps1` and then `ps2`: later matchers see earlier results |
| `Fuzzy.NormalizeFixpoint` | src/pytest_pvcr/recordings.py:181-203 | matchers that each leave an argument unchanged leave it unchanged together |
| `Fuzzy.ReplaceAllNoOccurrence` | src/pytest_pvcr/recordings.py:186-188 | a zero-group pattern with no occurrence in the argument leaves it unchanged |
| `Fuzzy.ReplaceAllLeading` | src/pytest_pvcr/recordings.py:186-188 | a leading occurrence becomes one placeholder and the rest is rewritten independently |
| `Fuzzy.ReplaceAllWhole` | src/pytest_pvcr/recordings.py:186-188 | an argument equal to a non-empty literal pattern becomes exactly the placeholder |
| `Fuzzy.GroupedNoMatch` | src/pytest_pvcr/recordings.py:190-192 | a grouped pattern that does not fully match has no effect |
| `Fuzzy.GroupedSingleGroup` | src/pytest_pvcr/recordings.py:194-203 | a one-group full match keeps the group text, with a placeholder in front iff `start(1) > 0` and at the back iff the group ends before the end |
| `Fuzzy.GroupedWholeArgument` | src/pytest_pvcr/recordings.py:194-203 | a single group spanning the whole argument leaves it unchanged |
| `Fuzzy.DryRunExample` | tests/test_fuzzy.py:20-27 | `["kubectl", "--dry-run", "apply"]` with `--dry-run` gives `["kubectl", PLACEHOLDER, "apply"]` |
| `Fuzzy.KubeconfigExample` | tests/test_fuzzy.py:29-32 | `"/home/user/kubeconfig"` with one group at 11..21 gives `PLACEHOLDER + "kubeconfig"` |
| `Fuzzy.PartialReplacementExample` | tests/test_fuzzy.py:48-52 | `"/tmp/test/file.txt"` with `/tmp/test` gives `PLACEHOLDER + "/file.txt"` |
| `Store.Persisted` | src/pytest_pvcr/recordings.py:243-251 | a missing file or a document without a `recordings` list gives no entries; otherwise the list itself |
| `Store.Matching` | src/pytest_pvcr/recordings.py:148-163 | only the length bound: there are no more matches than history entries; what the matches are is stated by `Store.MatchingMembers` |
| `Store.MatchingMembers` | src/pytest_pvcr/recordings.py:148-163 | a recording is found iff it is in the history and matches args and stdin with any iteration |
| `Store.MatchingAll` | src/pytest_pvcr/recordings.py:148-163 | when every recording of the history matches, all are returned |
| `Store.FindFirst` | src/pytest_pvcr/recordings.py:251-257 | the index of the first persisted entry equal to the recording, or None iff no entry is equal |
| `Store.Lookup` | src/pytest_pvcr/recordings.py:241-257 | `load` fills from some entry iff one is equal, the payload comes from an equal entry, and a missing file, a missing `recordings` key or an empty list gives nothing |
| `Store.Splice` | src/pytest_pvcr/recordings.py:290 | `es[idx:idx+1] = [e]` replaces entry idx with the length unchanged and every other entry kept, or appends when `idx == len(es)` |
| `Store.WriteIndex` | src/pytest_pvcr/recordings.py:278-288 | the write position is inside the list iff the mode is "all" and an equal entry exists |
| `Store.WriteFile` | src/pytest_pvcr/recordings.py:265-295 | "none" leaves the file; "all" with an equal entry replaces the first one in place, keeping the length and every other entry; otherwise the encoded recording is appended to the prior entries |
| `Store.LookupAfterWrite` | src/pytest_pvcr/recordings.py:241-295 | after a write in any mode but "none", load finds the recording again, with exactly its fields in mode "all" or when no equal entry existed |
| `Store.WritePreservesOtherLookups` | src/pytest_pvcr/recordings.py:278-290 | a write does not change what load finds for a recording not equal to the written one |
| `Store.Recordings.constructor` | src/pytest_pvcr/recordings.py:141-146 | file and mode as given, matchers the given list or `[]`, empty history, and `blockUnrecorded` iff mode "once" with the file present |
| `Store.Recordings.FindAll` | src/pytest_pvcr/recordings.py:148-163 | the loop returns exactly `Matching` of the history |
| `Store.Recordings.FuzzyCompiler` | src/pytest_pvcr/recordings.py:165-207 | the nested loops return one output per argument, in order, each the argument rewritten by every matcher in order |
| `Store.Recordings.LoadInto` | src/pytest_pvcr/recordings.py:243-257 | the recording takes the payload of the first equal entry and becomes saved; without one it is unchanged |
| `Store.Recordings.Load` | src/pytest_pvcr/recordings.py:235-257 | the history is emptied, then the recording is filled as `LoadInto` says |
| `Store.Recordings.Append` | src/pytest_pvcr/recordings.py:209-233 | the fresh recording carries the normalised args and stdin and iteration 1 + the number of earlier matching history entries; it is filled from the file and saved iff found and mode is not "all"; the history is then exactly this recording |
| `Store.Recordings.AppendKeepingHistory` | src/pytest_pvcr/recordings.py:209-233 | as `Append`, except the history grows by the new recording |
| `Store.Recordings.Write` | src/pytest_pvcr/recordings.py:259-295 | the file becomes `WriteFile` of the old file; the fields are unchanged and `saved` becomes true unless the mode is "none" |
| `Store.Recordings.Clean` | src/pytest_pvcr/recordings.py:297-309 | the history is empty; the file is reset to an empty `recordings` list iff asked |
| `Store.RepeatedCallsAsWritten` | src/pytest_pvcr/recordings.py:222-241 | n identical `append` calls against a missing file yield iterations 1, 2, 2, ..., 2 |
| `Store.RepeatedCallsIntended` | tests/test_recordings.py:40-47 | n identical calls of the corrected append yield iterations 1, 2, ..., n |
| `Wrapper.SetDefault` | src/pytest_pvcr/wrapper.py:59-60 | the key is present afterwards, with the caller's value if it had one and the default otherwise; no other key changes |
| `Wrapper.CaptureKwargs` | src/pytest_pvcr/wrapper.py:56-60 | with neither stdout nor stderr given, `capture_output` is forced true and nothing else changes; otherwise both streams are present, the caller's values are kept and the missing one is PIPE |
| `Wrapper.ReplayOutcome` | src/pytest_pvcr/wrapper.py:33-43 | a successful replay carries exactly the recording's args, rc, stdout and stderr; it fails iff waiting is on and the duration is missing or negative |
| `Wrapper.Host.Run` | src/pytest_pvcr/wrapper.py:61-64 | the invocation is logged, and the result is the host's answer for that call |
| `Wrapper.Host.Sleep` | src/pytest_pvcr/wrapper.py:35-36 | the sleep is logged |
| `Wrapper.SubprocessWrapper.constructor` | src/pytest_pvcr/wrapper.py:80-86 | the class defaults: disabled, waiting on replay, not blocking |
| `Wrapper.SubprocessWrapper.Replay` | src/pytest_pvcr/wrapper.py:33-43 | the outcome is `ReplayOutcome`, with one sleep of the recorded duration iff waiting is on and succeeded |
| `Wrapper.SubprocessWrapper.ExecuteAndRecord` | src/pytest_pvcr/wrapper.py:54-74 | one execution with the defaulted kwargs; its result is returned unchanged; the recording takes its stdout, stderr, rc and duration and is written once |
| `Wrapper.SubprocessWrapper.Run` | src/pytest_pvcr/wrapper.py:24-74 | the recording comes from `append` as written, so the history afterwards is exactly this recording and its iteration is 1 + the matches in the previous history; saved: replayed with no execution and no write; unsaved with block-run or block-unrecorded: `Blocked(args)` with no execution and no write; otherwise executed once, recorded and written once, result returned unchanged |
| `Wrapper.ResolveAttribute` | src/pytest_pvcr/wrapper.py:88-101 | `run` resolves to the interceptor iff enabled; `pvcr_orig_cls` gives the original module; the wrapper's own names come next; anything else falls through to the original module |

## Left out

- YAML loading and dumping, `Path.exists` and `mkdir`: the file is the abstract value `File`. Other top-level document keys, a null `recordings` value, entries with a null iteration or non-list args, and unreadable files are not modelled.
- The regex engine: zero-group patterns are literals, so metacharacters are not interpreted. A grouped pattern is an oracle whose matches are assumed valid (every group takes part and lies inside the argument). Python's join fails with a TypeError when a group does not take part; that case is not modelled.
- `str(arg)` on bytes, and bytes payloads generally: args, stdin, stdout and stderr are text.
- The base64 value codec, the `NotImplemented` result of `__eq__` on non-recordings, and the suppression of writes in "once" mode. These three appear only in the tests (tests/test_encoding.py, tests/test_recording.py:148, tests/test_recordings.py:150-162), not in the shown source. The model writes in "once" mode exactly as in "new".
- Record-mode strings other than the four documented ones: the source treats any other string like "new".
- `Wrapper.SubprocessWrapper.Run`: the duration is whole microseconds reported by the host. The float arithmetic on `time.time()` and the division before `time.sleep` are not modelled.
- `run` with a single command string: the source would iterate its characters as arguments; only argument lists are modelled.
- Exceptions raised by the real `subprocess.run`: they pass through unchanged and are not modelled.
- Calling `run` before a store is installed (an AttributeError on `pvcr_history`): the model's wrapper always holds a store.
- Logging, `install_wrapper`/`uninstall_wrapper` (the `sys.modules` substitution), and `pvcr_current_request` and `pvcr_record_mode`, which `run` never reads.
- src/pytest_pvcr/plugin.py (fixture, option and marker glue, including matcher-list assembly) is not part of this model.

## Findings

| source | as written | input that shows it | evidently intended | confidence | as-written member | corrected member |
|---|---|---|---|---|---|---|
| src/pytest_pvcr/recordings.py:241 | `load`, called by every `append`, empties `_history`, so `find_all` only ever sees the previous recording | three identical `append(["ls"])` calls on a store whose file does not exist yield iterations 1, 2, 2 | the history keeps every recording of the test, so the n-th identical call is iteration n; tests/test_recordings.py:190 expects two history entries after two appends; the wrapper's `run` calls this `append`, so repeated identical `run` calls replay entries 1, 2, 2 as well | not executed | `Store.RepeatedCallsAsWritten` | `Store.RepeatedCallsIntended` |
