/**
 * One captured subprocess invocation (`Recording` in recordings.py): its
 * identity (args, stdin, iteration), its payload (stdout, stderr, rc,
 * duration), the sparse persisted form of it and the match predicate.
 */
module RecordingModel {
  import opened Base

  /** The seven data fields of a Recording: everything except `saved`. */
  datatype Fields = Fields(
    args: seq<string>,
    stdin: Option<string>,
    stdout: Option<string>,
    stderr: Option<string>,
    rc: Option<int>,
    duration: Option<int>,
    iteration: int)

  /**
   * One persisted record as read from or written to the recordings file:
   * a mapping in which every key may be missing. `stdin`, `stdout`,
   * `stderr`, `rc` and `duration` may also be present with a null value.
   */
  datatype Entry = Entry(
    args: Slot<seq<string>>,
    stdin: Slot<Option<string>>,
    stdout: Slot<Option<string>>,
    stderr: Slot<Option<string>>,
    rc: Slot<Option<int>>,
    duration: Slot<Option<int>>,
    iteration: Slot<int>)

  /** The empty mapping `{}`. */
  const EmptyEntry: Entry := Entry(Absent, Absent, Absent, Absent, Absent, Absent, Absent)

  /** The fields of `Recording(args, stdin)` once its iteration is set: no payload yet. */
  function NewKey(args: seq<string>, stdin: Option<string>, iteration: int): Fields {
    Fields(args, stdin, None, None, None, None, iteration)
  }

  /**
   * `Recording.match(args, stdin, iteration)`: the arguments and stdin must be
   * equal; an absent iteration is a wildcard.
   */
  predicate Matches(f: Fields, args: seq<string>, stdin: Option<string>, iteration: Option<int>): (b: bool)
    ensures b ==> f.args == args && f.stdin == stdin
    ensures iteration.Some? ==> (b <==> Matches(f, args, stdin, None) && f.iteration == iteration.value)
    decreases if iteration.Some? then 1 else 0
  {
    f.args == args && f.stdin == stdin && (iteration.None? || f.iteration == iteration.value)
  }

  /** `a == b` on Recordings: `a.match(b.args, b.stdin, b.iteration)`. */
  predicate SameRecording(a: Fields, b: Fields): (same: bool)
    ensures same <==> (a.args, a.stdin, a.iteration) == (b.args, b.stdin, b.iteration)
  {
    Matches(a, b.args, b.stdin, Some(b.iteration))
  }

  /**
   * `to_encoded_dict`: args, rc, duration and iteration are always written;
   * stdin, stdout and stderr only when they are not None.
   */
  function Encode(f: Fields): (e: Entry)
    ensures e.args == Present(f.args) && e.rc == Present(f.rc)
    ensures e.duration == Present(f.duration) && e.iteration == Present(f.iteration)
    ensures e.stdin.Present? <==> f.stdin.Some?
    ensures e.stdout.Present? <==> f.stdout.Some?
    ensures e.stderr.Present? <==> f.stderr.Some?
  {
    Entry(
      Present(f.args),
      if f.stdin.Some? then Present(f.stdin) else Absent,
      if f.stdout.Some? then Present(f.stdout) else Absent,
      if f.stderr.Some? then Present(f.stderr) else Absent,
      Present(f.rc),
      Present(f.duration),
      Present(f.iteration))
  }

  /**
   * `from_encoded_dict`: every present key is applied; a missing key leaves
   * the default (args `[]`, iteration 1, everything else None).
   */
  function Decode(e: Entry): Fields {
    Fields(
      e.args.GetOr([]),
      e.stdin.GetOr(None),
      e.stdout.GetOr(None),
      e.stderr.GetOr(None),
      e.rc.GetOr(None),
      e.duration.GetOr(None),
      e.iteration.GetOr(1))
  }

  /** An entry in the shape `to_encoded_dict` produces. */
  predicate Canonical(e: Entry) {
    && e.args.Present? && e.rc.Present? && e.duration.Present? && e.iteration.Present?
    && (e.stdin.Present? ==> e.stdin.value.Some?)
    && (e.stdout.Present? ==> e.stdout.value.Some?)
    && (e.stderr.Present? ==> e.stderr.value.Some?)
  }

  /** Every key present in the entry is taken over; every missing key gets its default. */
  lemma DecodeKeys(e: Entry)
    ensures Decode(e).args == (if e.args.Present? then e.args.value else [])
    ensures Decode(e).iteration == (if e.iteration.Present? then e.iteration.value else 1)
    ensures e.stdin.Absent? ==> Decode(e).stdin.None?
    ensures e.stdout.Absent? ==> Decode(e).stdout.None?
    ensures e.stderr.Absent? ==> Decode(e).stderr.None?
    ensures e.rc.Absent? ==> Decode(e).rc.None?
    ensures e.duration.Absent? ==> Decode(e).duration.None?
    ensures e.stdin.Present? ==> Decode(e).stdin == e.stdin.value
    ensures e.stdout.Present? ==> Decode(e).stdout == e.stdout.value
    ensures e.stderr.Present? ==> Decode(e).stderr == e.stderr.value
    ensures e.rc.Present? ==> Decode(e).rc == e.rc.value
    ensures e.duration.Present? ==> Decode(e).duration == e.duration.value
  {
  }

  /** Decoding an encoded recording restores all seven data fields. */
  lemma DecodeEncode(f: Fields)
    ensures Decode(Encode(f)) == f
  {
  }

  /** Encoding a decoded entry gives the entry back exactly when it is in canonical shape. */
  lemma EncodeDecode(e: Entry)
    ensures Encode(Decode(e)) == e <==> Canonical(e)
  {
  }

  /** `from_encoded_dict({})` is `Recording([])`: args `[]`, iteration 1, no payload. */
  lemma DecodeEmpty()
    ensures Decode(EmptyEntry) == NewKey([], None, 1)
  {
  }

  /** Equality is an equivalence relation and ignores rc, stdout, stderr and duration. */
  lemma SameRecordingIsIdentity(a: Fields, b: Fields, c: Fields)
    ensures SameRecording(a, a)
    ensures SameRecording(a, b) <==> SameRecording(b, a)
    ensures SameRecording(a, b) && SameRecording(b, c) ==> SameRecording(a, c)
    ensures SameRecording(a, b) <==> (a.args, a.stdin, a.iteration) == (b.args, b.stdin, b.iteration)
    ensures SameRecording(a, b) <==> SameRecording(a.(stdout := c.stdout, stderr := c.stderr, rc := c.rc, duration := c.duration), b)
  {
  }

  /** `Recording`: a mutable record; `saved` says its data came from, or went to, the file. */
  class Recording {
    var args: seq<string>
    var stdin: Option<string>
    var stdout: Option<string>
    var stderr: Option<string>
    var rc: Option<int>
    var duration: Option<int>
    var iteration: int
    var saved: bool

    /** The seven data fields as a value. */
    function Value(): Fields
      reads this
    {
      Fields(args, stdin, stdout, stderr, rc, duration, iteration)
    }

    /** `Recording(args, stdin=None, stdout=None, stderr=None, rc=None, duration=None, iteration=1, saved=False)` */
    constructor (args: seq<string>, stdin: Option<string> := None, stdout: Option<string> := None,
                 stderr: Option<string> := None, rc: Option<int> := None, duration: Option<int> := None,
                 iteration: int := 1, saved: bool := false)
      ensures Value() == Fields(args, stdin, stdout, stderr, rc, duration, iteration)
      ensures this.saved == saved
    {
      this.args := args;
      this.stdin := stdin;
      this.stdout := stdout;
      this.stderr := stderr;
      this.rc := rc;
      this.duration := duration;
      this.iteration := iteration;
      this.saved := saved;
    }

    /** `to_encoded_dict`: the four fixed keys, then the non-None optional ones. */
    method ToEncodedDict() returns (e: Entry)
      ensures e == Encode(Value())
    {
      e := Entry(Present(args), Absent, Absent, Absent, Present(rc), Present(duration), Present(iteration));
      if stdin.Some? {
        e := e.(stdin := Present(stdin));
      }
      if stdout.Some? {
        e := e.(stdout := Present(stdout));
      }
      if stderr.Some? {
        e := e.(stderr := Present(stderr));
      }
    }

    /** `from_encoded_dict`: a fresh, unsaved Recording carrying the entry's data. */
    static method FromEncodedDict(data: Entry) returns (r: Recording)
      ensures fresh(r)
      ensures r.Value() == Decode(data) && !r.saved
    {
      r := new Recording(data.args.GetOr([]), rc := data.rc.GetOr(None), iteration := data.iteration.GetOr(1));
      if data.stdin.Present? {
        r.stdin := data.stdin.value;
      }
      if data.stdout.Present? {
        r.stdout := data.stdout.value;
      }
      if data.stderr.Present? {
        r.stderr := data.stderr.value;
      }
      if data.rc.Present? {
        r.rc := data.rc.value;
      }
      if data.duration.Present? {
        r.duration := data.duration.value;
      }
    }

    /** `copy`: overwrite the seven data fields with `other`'s; `saved` is kept. */
    method Copy(other: Recording)
      modifies this
      ensures Value() == old(other.Value())
      ensures saved == old(saved)
    {
      args, stdin, stdout, stderr := other.args, other.stdin, other.stdout, other.stderr;
      rc, iteration, duration := other.rc, other.iteration, other.duration;
    }

    /** `match` */
    method Match(args: seq<string>, stdin: Option<string>, iteration: Option<int>) returns (b: bool)
      ensures b == Matches(Value(), args, stdin, iteration)
    {
      b := this.args == args && this.stdin == stdin && (iteration.None? || this.iteration == iteration.value);
    }

    /** `__eq__`: only args, stdin and iteration take part. */
    method Equals(other: Recording) returns (b: bool)
      ensures b == SameRecording(Value(), other.Value())
      ensures b <==> (args, stdin, iteration) == (other.args, other.stdin, other.iteration)
    {
      b := Match(other.args, other.stdin, Some(other.iteration));
    }
  }
}
