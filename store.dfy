/**
 * The recordings store (`Recordings` in recordings.py): the in-memory
 * history of one test, the record mode and the backing file, with the
 * fuzzy compiler, iteration counting, load and write.
 */
module Store {
  import opened Base
  import opened RecordingModel
  import opened Fuzzy

  /** The record modes the store distinguishes ("new", "none", "all", "once"). */
  datatype RecordMode = RecordNew | RecordNone | RecordAll | RecordOnce

  /**
   * The backing file: missing, or present with a document whose
   * `recordings` list may be missing (an empty document, or one without that key).
   */
  datatype File = NoFile | FileContents(recordings: Option<seq<Entry>>)

  /** The persisted entries `load` and `write` work on: none unless the file has a `recordings` list. */
  function Persisted(file: File): (es: seq<Entry>)
    ensures file.NoFile? || file.recordings.None? ==> es == []
    ensures file.FileContents? && file.recordings.Some? ==> es == file.recordings.value
  {
    if file.FileContents? && file.recordings.Some? then file.recordings.value else []
  }

  /** The index of the first persisted entry equal to `f`, if any. */
  function FindFirst(es: seq<Entry>, f: Fields): (r: Option<nat>)
    ensures r.Some? ==> r.value < |es| && SameRecording(f, Decode(es[r.value]))
    ensures r.Some? ==> forall j :: 0 <= j < r.value ==> !SameRecording(f, Decode(es[j]))
    ensures r.None? <==> forall j :: 0 <= j < |es| ==> !SameRecording(f, Decode(es[j]))
  {
    if es == [] then None
    else if SameRecording(f, Decode(es[0])) then Some(0)
    else match FindFirst(es[1..], f)
      case None => None
      case Some(i) => Some(i + 1)
  }

  /** What `load` fills a recording with: the decoded first persisted entry equal to it. */
  function Lookup(file: File, f: Fields): (r: Option<Fields>)
    ensures r.Some? <==> exists j :: 0 <= j < |Persisted(file)| && SameRecording(f, Decode(Persisted(file)[j]))
    ensures r.Some? ==> SameRecording(f, r.value)
    ensures file.NoFile? || file.recordings.None? || file.recordings == Some([]) ==> r.None?
  {
    match FindFirst(Persisted(file), f)
    case None => None
    case Some(i) => Some(Decode(Persisted(file)[i]))
  }

  /** The slice assignment `es[idx:idx+1] = [e]`: replaces entry `idx`, or appends when `idx == |es|`. */
  function Splice(es: seq<Entry>, idx: nat, e: Entry): (r: seq<Entry>)
    requires idx <= |es|
    ensures idx < |es| ==> |r| == |es| && r[idx] == e && forall j :: 0 <= j < |es| && j != idx ==> r[j] == es[j]
    ensures idx == |es| ==> r == es + [e]
  {
    if idx < |es| then es[..idx] + [e] + es[idx + 1..] else es + [e]
  }

  /** Where `write` puts the recording: over the first equal entry in mode "all", at the end otherwise. */
  function WriteIndex(es: seq<Entry>, mode: RecordMode, f: Fields): (idx: nat)
    ensures idx <= |es|
    ensures idx < |es| <==> mode == RecordAll && FindFirst(es, f).Some?
  {
    if mode == RecordAll && FindFirst(es, f).Some? then FindFirst(es, f).value else |es|
  }

  /** The file after `write` of a recording with fields `f`. */
  function WriteFile(file: File, mode: RecordMode, f: Fields): (r: File)
    ensures mode == RecordNone ==> r == file
    ensures mode == RecordAll && FindFirst(Persisted(file), f).Some? ==>
      var i := FindFirst(Persisted(file), f).value;
      && r.FileContents? && r.recordings.Some?
      && |r.recordings.value| == |Persisted(file)|
      && r.recordings.value[i] == Encode(f)
      && forall j :: 0 <= j < |Persisted(file)| && j != i ==> r.recordings.value[j] == Persisted(file)[j]
    ensures mode != RecordNone && !(mode == RecordAll && FindFirst(Persisted(file), f).Some?) ==>
      r == FileContents(Some(Persisted(file) + [Encode(f)]))
  {
    if mode == RecordNone then file
    else
      var es := Persisted(file);
      FileContents(Some(Splice(es, WriteIndex(es, mode, f), Encode(f))))
  }

  /** The recordings of `h` that match `args` and `stdin` with any iteration, in order (`find_all`). */
  ghost function Matching(h: seq<Recording>, args: seq<string>, stdin: Option<string>): (r: seq<Recording>)
    reads h
    ensures |r| <= |h|
  {
    if h == [] then []
    else
      var last := h[|h| - 1];
      Matching(h[..|h| - 1], args, stdin) + (if Matches(last.Value(), args, stdin, None) then [last] else [])
  }

  /** `find_all` returns exactly the recordings of the history that match. */
  lemma {:induction false} MatchingMembers(h: seq<Recording>, args: seq<string>, stdin: Option<string>, x: Recording)
    ensures x in Matching(h, args, stdin) <==> x in h && Matches(x.Value(), args, stdin, None)
  {
    if h != [] {
      MatchingMembers(h[..|h| - 1], args, stdin, x);
      assert h == h[..|h| - 1] + [h[|h| - 1]];
    }
  }

  /** When every recording of `h` matches, all of them are found. */
  lemma {:induction false} MatchingAll(h: seq<Recording>, args: seq<string>, stdin: Option<string>)
    requires forall k :: 0 <= k < |h| ==> h[k].args == args && h[k].stdin == stdin
    ensures Matching(h, args, stdin) == h
  {
    if h != [] {
      MatchingAll(h[..|h| - 1], args, stdin);
      assert h[..|h| - 1] + [h[|h| - 1]] == h;
    }
  }

  /** Once written (in any mode but "none"), a recording is found again by `load`. */
  lemma LookupAfterWrite(file: File, mode: RecordMode, f: Fields)
    requires mode != RecordNone
    ensures Lookup(WriteFile(file, mode, f), f).Some?
    ensures mode == RecordAll || FindFirst(Persisted(file), f).None? ==> Lookup(WriteFile(file, mode, f), f) == Some(f)
  {
    var es := Persisted(file);
    var es' := Persisted(WriteFile(file, mode, f));
    DecodeEncode(f);
    if mode == RecordAll && FindFirst(es, f).Some? {
      var i := FindFirst(es, f).value;
      assert SameRecording(f, Decode(es'[i]));
      assert FindFirst(es', f) == Some(i);
    } else {
      assert es' == es + [Encode(f)];
      assert SameRecording(f, Decode(es'[|es|]));
      if FindFirst(es, f).None? {
        assert FindFirst(es', f) == Some(|es|);
      }
    }
  }

  /** Writing one recording does not change what `load` finds for a recording not equal to it. */
  lemma WritePreservesOtherLookups(file: File, mode: RecordMode, f: Fields, g: Fields)
    requires !SameRecording(g, f)
    ensures Lookup(WriteFile(file, mode, f), g) == Lookup(file, g)
  {
    var es := Persisted(file);
    var es' := Persisted(WriteFile(file, mode, f));
    DecodeEncode(f);
    if mode != RecordNone {
      assert !SameRecording(g, Decode(Encode(f)));
      if mode == RecordAll && FindFirst(es, f).Some? {
        var i := FindFirst(es, f).value;
        assert !SameRecording(g, Decode(es[i]));
        SameAtEveryIndex(es, es', g);
      } else {
        assert es' == es + [Encode(f)];
        FindFirstAppend(es, Encode(f), g);
      }
    }
  }

  /** Two entry lists that agree, index by index, on equality to `g` give the same first match. */
  lemma {:induction false} SameAtEveryIndex(es: seq<Entry>, es': seq<Entry>, g: Fields)
    requires |es| == |es'|
    requires forall j :: 0 <= j < |es| ==> (SameRecording(g, Decode(es[j])) <==> SameRecording(g, Decode(es'[j])))
    ensures FindFirst(es, g) == FindFirst(es', g)
  {
    if es != [] {
      SameAtEveryIndex(es[1..], es'[1..], g);
    }
  }

  /** Appending an entry not equal to `g` does not change the first match for `g`. */
  lemma FindFirstAppend(es: seq<Entry>, e: Entry, g: Fields)
    requires !SameRecording(g, Decode(e))
    ensures FindFirst(es + [e], g) == FindFirst(es, g)
  {
    var es' := es + [e];
    assert forall j :: 0 <= j < |es| ==> es'[j] == es[j];
    match FindFirst(es, g)
    case None =>
    case Some(k) =>
      assert FindFirst(es', g) == Some(k);
  }

  /** `Recordings`: the store of one test. */
  class Recordings {
    var file: File
    const mode: RecordMode
    const matchers: seq<Pattern>
    /** Unrecorded commands are refused: mode "once" against a file that already existed. */
    const blockUnrecorded: bool
    var history: seq<Recording>

    constructor (file: File, mode: RecordMode, fuzzyMatchers: Option<seq<Pattern>>)
      requires fuzzyMatchers.Some? ==> AllWellFormed(fuzzyMatchers.value)
      ensures this.file == file && this.mode == mode && history == []
      ensures matchers == if fuzzyMatchers.Some? then fuzzyMatchers.value else []
      ensures AllWellFormed(matchers)
      ensures blockUnrecorded <==> mode == RecordOnce && file.FileContents?
    {
      this.file := file;
      this.mode := mode;
      this.matchers := if fuzzyMatchers.Some? then fuzzyMatchers.value else [];
      this.blockUnrecorded := mode == RecordOnce && file.FileContents?;
      this.history := [];
    }

    /** `find_all`: the recordings of the history matching `args` and `stdin`, in order. */
    method FindAll(args: seq<string>, stdin: Option<string>) returns (found: seq<Recording>)
      ensures found == Matching(history, args, stdin)
    {
      found := [];
      for i := 0 to |history|
        invariant found == Matching(history[..i], args, stdin)
      {
        assert history[..i + 1][..i] == history[..i];
        var m := history[i].Match(args, stdin, None);
        if m {
          found := found + [history[i]];
        }
      }
      assert history[..|history|] == history;
    }

    /** `_fuzzy_compiler`: every argument rewritten by every matcher in order. */
    method FuzzyCompiler(args: seq<string>) returns (fArgs: seq<string>)
      requires AllWellFormed(matchers)
      ensures |fArgs| == |args|
      ensures forall i :: 0 <= i < |args| ==> fArgs[i] == Normalize(args[i], matchers)
      ensures fArgs == NormalizeAll(args, matchers)
    {
      fArgs := [];
      for i := 0 to |args|
        invariant fArgs == NormalizeAll(args[..i], matchers)
      {
        var fArg := args[i];
        for j := 0 to |matchers|
          invariant fArg == Normalize(args[i], matchers[..j])
        {
          assert matchers[..j + 1][..j] == matchers[..j];
          assert matchers[j] in matchers;
          fArg := ApplyMatcher(fArg, matchers[j]);
        }
        assert matchers[..|matchers|] == matchers;
        assert args[..i + 1][..i] == args[..i];
        fArgs := fArgs + [fArg];
      }
      assert args[..|args|] == args;
    }

    /** Lines 243-257 of `load`: fill `recording` from the first equal persisted entry. */
    method LoadInto(recording: Recording)
      modifies recording
      ensures var found := Lookup(file, old(recording.Value()));
        && recording.Value() == (if found.Some? then found.value else old(recording.Value()))
        && recording.saved == (found.Some? || old(recording.saved))
    {
      if file.NoFile? {
        return;
      }
      var data := file.recordings;
      if data.None? || data.value == [] {
        return;
      }
      var entries := data.value;
      for i := 0 to |entries|
        invariant recording.Value() == old(recording.Value()) && recording.saved == old(recording.saved)
        invariant forall j :: 0 <= j < i ==> !SameRecording(recording.Value(), Decode(entries[j]))
      {
        var o := Recording.FromEncodedDict(entries[i]);
        var eq := recording.Equals(o);
        if eq {
          assert FindFirst(entries, recording.Value()) == Some(i);
          recording.Copy(o);
          recording.saved := true;
          return;
        }
      }
    }

    /** `load`: reset the history, then fill `recording` from the file. */
    method Load(recording: Recording)
      modifies this`history, recording
      ensures history == []
      ensures var found := Lookup(file, old(recording.Value()));
        && recording.Value() == (if found.Some? then found.value else old(recording.Value()))
        && recording.saved == (found.Some? || old(recording.saved))
    {
      history := [];
      LoadInto(recording);
    }

    /**
     * `append` as written: the returned recording carries the normalised
     * arguments and the next iteration for them; because `load` resets the
     * history, the history is afterwards that recording alone.
     */
    method Append(args: seq<string>, stdin: Option<string>) returns (r: Recording)
      requires AllWellFormed(matchers)
      modifies this`history
      ensures fresh(r)
      ensures history == [r]
      ensures r.args == NormalizeAll(args, matchers) && r.stdin == stdin
      ensures r.iteration == 1 + |old(Matching(history, NormalizeAll(args, matchers), stdin))|
      ensures var key := NewKey(r.args, stdin, r.iteration);
        var found := Lookup(file, key);
        && r.Value() == (if found.Some? then found.value else key)
        && r.saved == (found.Some? && mode != RecordAll)
    {
      var fArgs := FuzzyCompiler(args);
      r := new Recording(fArgs, stdin);
      var prior := FindAll(fArgs, stdin);
      r.iteration := |prior| + 1;
      Load(r);
      if mode == RecordAll {
        r.saved := false;
      }
      history := history + [r];
    }

    /**
     * `append` as evidently intended: the same, except that the history keeps
     * every earlier recording, so that repeated identical calls are numbered 1, 2, 3, ...
     */
    method AppendKeepingHistory(args: seq<string>, stdin: Option<string>) returns (r: Recording)
      requires AllWellFormed(matchers)
      modifies this`history
      ensures fresh(r)
      ensures history == old(history) + [r]
      ensures r.args == NormalizeAll(args, matchers) && r.stdin == stdin
      ensures r.iteration == 1 + |old(Matching(history, NormalizeAll(args, matchers), stdin))|
      ensures var key := NewKey(r.args, stdin, r.iteration);
        var found := Lookup(file, key);
        && r.Value() == (if found.Some? then found.value else key)
        && r.saved == (found.Some? && mode != RecordAll)
    {
      var fArgs := FuzzyCompiler(args);
      r := new Recording(fArgs, stdin);
      var prior := FindAll(fArgs, stdin);
      r.iteration := |prior| + 1;
      LoadInto(r);
      if mode == RecordAll {
        r.saved := false;
      }
      history := history + [r];
    }

    /**
     * `write`: nothing in mode "none"; otherwise read-modify-write of the
     * file, replacing the first equal entry in mode "all" and appending
     * otherwise, and mark the recording saved.
     */
    method Write(recording: Recording)
      modifies this`file, recording
      ensures file == WriteFile(old(file), mode, old(recording.Value()))
      ensures recording.Value() == old(recording.Value())
      ensures recording.saved == (mode != RecordNone || old(recording.saved))
    {
      if mode == RecordNone {
        return;
      }
      var entries: seq<Entry> := [];
      if file.FileContents? && file.recordings.Some? {
        entries := file.recordings.value;
      }
      var idx := 0;
      var broke := false;
      var rIdx := 0;
      while rIdx < |entries|
        invariant 0 <= rIdx <= |entries|
        invariant !broke
        invariant file == old(file) && recording.Value() == old(recording.Value())
        invariant mode == RecordAll ==> forall j :: 0 <= j < rIdx ==> !SameRecording(recording.Value(), Decode(entries[j]))
      {
        var o := Recording.FromEncodedDict(entries[rIdx]);
        var eq := recording.Equals(o);
        if eq && mode == RecordAll {
          idx := rIdx;
          broke := true;
          assert FindFirst(entries, recording.Value()) == Some(rIdx);
          break;
        }
        rIdx := rIdx + 1;
      }
      if !broke {
        idx := |entries|;
      }
      assert idx == WriteIndex(entries, mode, recording.Value());
      var encoded := recording.ToEncodedDict();
      entries := Splice(entries, idx, encoded);
      file := FileContents(Some(entries));
      recording.saved := true;
    }

    /** `clean`: empty the history and, when asked, reset the file to an empty `recordings` list. */
    method Clean(write: bool)
      modifies this`history, this`file
      ensures history == []
      ensures file == if write then FileContents(Some([])) else old(file)
    {
      history := [];
      if !write {
        return;
      }
      file := FileContents(Some([]));
    }
  }

  /** Every recording of `h` has arguments `args` and input `stdin`. */
  ghost predicate AllCalls(h: seq<Recording>, args: seq<string>, stdin: Option<string>)
    reads h
  {
    forall k :: 0 <= k < |h| ==> h[k].args == args && h[k].stdin == stdin
  }

  /** One `append` as written, on a store without fuzzy matchers whose history holds only this call. */
  method AppendStep(store: Recordings, args: seq<string>, stdin: Option<string>) returns (r: Recording)
    requires store.matchers == []
    requires |store.history| <= 1 && AllCalls(store.history, NormalizeAll(args, []), stdin)
    modifies store`history
    ensures store.history == [r]
    ensures AllCalls(store.history, NormalizeAll(args, []), stdin)
    ensures r.iteration == |old(store.history)| + 1
  {
    MatchingAll(store.history, NormalizeAll(args, []), stdin);
    r := store.Append(args, stdin);
  }

  /** One corrected `append`, on a store without fuzzy matchers whose history holds only this call. */
  method AppendKeepingHistoryStep(store: Recordings, args: seq<string>, stdin: Option<string>) returns (r: Recording)
    requires store.matchers == []
    requires AllCalls(store.history, NormalizeAll(args, []), stdin)
    modifies store`history
    ensures store.history == old(store.history) + [r]
    ensures AllCalls(store.history, NormalizeAll(args, []), stdin)
    ensures r.iteration == |old(store.history)| + 1
  {
    MatchingAll(store.history, NormalizeAll(args, []), stdin);
    r := store.AppendKeepingHistory(args, stdin);
  }

  /**
   * `n` identical calls to `append` as written on a store without a file:
   * the first is iteration 1 and every later one iteration 2, because
   * `load` has emptied the history each time.
   */
  method RepeatedCallsAsWritten(args: seq<string>, stdin: Option<string>, n: nat) returns (iterations: seq<int>)
    ensures |iterations| == n
    ensures forall k :: 0 <= k < n ==> iterations[k] == if k == 0 then 1 else 2
  {
    var store := new Recordings(NoFile, RecordNew, None);
    iterations := [];
    for i := 0 to n
      invariant |iterations| == i
      invariant store.matchers == []
      invariant |store.history| == if i == 0 then 0 else 1
      invariant AllCalls(store.history, NormalizeAll(args, []), stdin)
      invariant forall k :: 0 <= k < i ==> iterations[k] == if k == 0 then 1 else 2
    {
      var r := AppendStep(store, args, stdin);
      iterations := iterations + [r.iteration];
    }
  }

  /** `n` identical calls to the corrected `append`: iterations 1, 2, ..., n. */
  method RepeatedCallsIntended(args: seq<string>, stdin: Option<string>, n: nat) returns (iterations: seq<int>)
    ensures |iterations| == n
    ensures forall k :: 0 <= k < n ==> iterations[k] == k + 1
  {
    var store := new Recordings(NoFile, RecordNew, None);
    iterations := [];
    for i := 0 to n
      invariant |iterations| == i
      invariant store.matchers == []
      invariant |store.history| == i
      invariant AllCalls(store.history, NormalizeAll(args, []), stdin)
      invariant forall k :: 0 <= k < i ==> iterations[k] == k + 1
    {
      var r := AppendKeepingHistoryStep(store, args, stdin);
      iterations := iterations + [r.iteration];
    }
  }
}
