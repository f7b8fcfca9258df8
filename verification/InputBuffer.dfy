/**
  input_buffer.c: splitting what the user types into lines, in a fixed buffer.
 */
module InputBuffer {
  import opened Wrappers

  const USERBUF_SIZE: nat := 8191
  const NUL := '\0'

  // ------------------------------------------------------------ the splitting

  /** Position of the first newline, or the length. */
  function Newline(s: seq<char>): (r: nat)
    ensures r <= |s| && '\n' !in s[..r] && (r < |s| ==> s[r] == '\n')
  {
    if s == [] || s[0] == '\n' then 0 else Newline(s[1..]) + 1
  }

  /** The complete lines of `s`, without their newlines. */
  function Lines(s: seq<char>): seq<seq<char>>
    decreases |s|
  {
    var r := Newline(s);
    if r == |s| then [] else [s[..r]] + Lines(s[r + 1..])
  }

  /** What follows the last newline. */
  function Rest(s: seq<char>): (t: seq<char>)
    ensures '\n' !in t
    decreases |s|
  {
    var r := Newline(s);
    if r == |s| then s else Rest(s[r + 1..])
  }

  lemma OneLine(s: seq<char>)
    requires Newline(s) < |s|
    ensures var r := Newline(s); Lines(s) == [s[..r]] + Lines(s[r + 1..]) && Rest(s) == Rest(s[r + 1..])
  {
  }

  lemma NoLine(s: seq<char>)
    requires Newline(s) == |s|
    ensures Lines(s) == [] && Rest(s) == s
  {
  }

  lemma NewlineIs(s: seq<char>, r: nat)
    requires r < |s| && s[r] == '\n' && '\n' !in s[..r]
    ensures Newline(s) == r
  {
  }

  /** Splitting in two goes: the rest of the first is put before the second. */
  lemma {:induction false} SplitInTwo(s: seq<char>, t: seq<char>)
    ensures Lines(s + t) == Lines(s) + Lines(Rest(s) + t)
    ensures Rest(s + t) == Rest(Rest(s) + t)
    decreases |s|
  {
    hide Lines, Rest, Newline;
    NewlineInRange(s);
    var r := Newline(s);
    if r < |s| {
      TakesFirst(s, t, r);
      OneLine(s);
      OneLine(s + t);
      SplitInTwo(s[r + 1..], t);
      InFront(s[..r], Lines(s[r + 1..]), Lines(Rest(s) + t));
    } else {
      NoLine(s);
    }
  }

  lemma NewlineInRange(s: seq<char>)
    ensures Newline(s) <= |s|
  {
  }

  lemma TakesFirst(s: seq<char>, t: seq<char>, r: nat)
    requires r < |s| && r == Newline(s)
    ensures Newline(s + t) == r && (s + t)[..r] == s[..r] && (s + t)[r + 1..] == s[r + 1..] + t
  {
    NewlineIs(s + t, r);
  }

  lemma Behind(lines: seq<seq<char>>, line: seq<char>, more: seq<seq<char>>)
    ensures lines + ([line] + more) == lines + [line] + more
  {
  }

  lemma InFront(line: seq<char>, lines: seq<seq<char>>, more: seq<seq<char>>)
    ensures [line] + (lines + more) == ([line] + lines) + more
  {
  }

  // ---------------------------------------------------------------- the buffer

  /** The C string at the start of `buf`: what precedes its first NUL. */
  function Text(buf: seq<char>): (t: seq<char>)
    ensures |t| <= |buf| && t == buf[..|t|] && NUL !in t && (|t| < |buf| ==> buf[|t|] == NUL)
  {
    if buf == [] || buf[0] == NUL then [] else [buf[0]] + Text(buf[1..])
  }

  lemma {:induction false} TextIs(buf: seq<char>, n: nat)
    requires n < |buf| && NUL !in buf[..n] && buf[n] == NUL
    ensures Text(buf) == buf[..n]
    decreases n
  {
    if n > 0 {
      assert buf[0] == buf[..n][0];
      assert buf[1..][..n - 1] == buf[..n][1..];
      TextIs(buf[1..], n - 1);
    }
  }

  lemma {:induction false} TextEnds(buf: seq<char>, i: nat)
    requires i < |buf| && buf[i] == NUL
    ensures |Text(buf)| <= i
    decreases i
  {
    if i > 0 {
      TextEnds(buf[1..], i - 1);
    }
  }

  lemma TextAt(buf: seq<char>, i: nat)
    requires i < |buf| && i <= |Text(buf)|
    ensures i < |Text(buf)| <==> buf[i] != NUL
  {
    if i < |Text(buf)| {
      assert Text(buf)[i] in Text(buf);
    }
  }

  /** The buffer after the newline at `r` has been overwritten and the rest moved to the front. */
  function Shifted(buf: seq<char>, r: nat): (moved: seq<char>)
    requires |buf| == USERBUF_SIZE + 1 && r < USERBUF_SIZE
    ensures |moved| == |buf|
  {
    buf[r + 1..] + buf[r := NUL][USERBUF_SIZE - r..]
  }

  /** Position by position: what is behind the newline moves up, and the end of the buffer stays, except
      that the newline itself has become a NUL. */
  lemma ShiftedAt(buf: seq<char>, r: nat, i: nat)
    requires |buf| == USERBUF_SIZE + 1 && r < USERBUF_SIZE && i <= USERBUF_SIZE
    ensures Shifted(buf, r)[i] ==
            if i + r < USERBUF_SIZE then buf[i + r + 1] else if i == r then NUL else buf[i]
  {
  }

  /** Whatever lies behind it, the string that remains is the one behind the line taken. */
  lemma ShiftedText(buf: seq<char>, r: nat)
    requires |buf| == USERBUF_SIZE + 1 && buf[USERBUF_SIZE] == NUL && r < |Text(buf)|
    ensures r < USERBUF_SIZE && Shifted(buf, r)[USERBUF_SIZE] == NUL
    ensures Text(Shifted(buf, r)) == Text(buf)[r + 1..]
  {
    var t, moved := Text(buf), Shifted(buf, r);
    TextEnds(buf, USERBUF_SIZE);
    var n := |t| - r - 1;
    assert moved[..n] == t[r + 1..];
    assert moved[n] == buf[|t|];
    TextIs(moved, n);
  }

  /** The buffer after `read` has put `data` at `cur`. */
  function Written(buf: seq<char>, cur: nat, data: seq<char>): seq<char>
    requires cur + |data| <= |buf|
  {
    buf[..cur] + data + buf[cur + |data|..]
  }

  /** C's `unsigned int`. */
  function Wrap(a: int): nat
  {
    a % 0x1_0000_0000
  }

  lemma WrapWraps(a: int, b: int)
    ensures Wrap(Wrap(a) + b) == Wrap(a + b)
  {
  }

  lemma WrapSmall(a: nat)
    requires a <= USERBUF_SIZE
    ensures Wrap(a) == a
  {
  }

  /** A position below the start of the buffer becomes one near 2^32, which is no room at all. */
  lemma WrapBelowZero(a: int)
    requires -(USERBUF_SIZE as int) <= a < 0
    ensures Wrap(a) == 4294967296 + a >= USERBUF_SIZE - 1
  {
  }

  /** The buffer when its complete lines have been taken. */
  function Drained(buf: seq<char>): (drained: seq<char>)
    requires |buf| == USERBUF_SIZE + 1 && buf[USERBUF_SIZE] == NUL
    ensures |drained| == |buf|
    decreases |Text(buf)|
  {
    var r := Newline(Text(buf));
    if r == |Text(buf)| then buf
    else
      ShiftedText(buf, r);
      Drained(Shifted(buf, r))
  }

  lemma DrainedOnce(buf: seq<char>)
    requires |buf| == USERBUF_SIZE + 1 && buf[USERBUF_SIZE] == NUL && Newline(Text(buf)) < |Text(buf)|
    ensures var r := Newline(Text(buf));
            r < USERBUF_SIZE && Shifted(buf, r)[USERBUF_SIZE] == NUL && Drained(buf) == Drained(Shifted(buf, r))
  {
    ShiftedText(buf, Newline(Text(buf)));
  }

  lemma DrainedAlready(buf: seq<char>)
    requires |buf| == USERBUF_SIZE + 1 && buf[USERBUF_SIZE] == NUL && Newline(Text(buf)) == |Text(buf)|
    ensures Drained(buf) == buf
  {
  }

  lemma {:induction false} DrainedText(buf: seq<char>)
    requires |buf| == USERBUF_SIZE + 1 && buf[USERBUF_SIZE] == NUL
    ensures Drained(buf)[USERBUF_SIZE] == NUL && Text(Drained(buf)) == Rest(Text(buf))
    decreases |Text(buf)|
  {
    var t := Text(buf);
    var r := Newline(t);
    if r == |t| {
      DrainedAlready(buf);
      NoLine(t);
    } else {
      ShiftedText(buf, r);
      DrainedOnce(buf);
      OneLine(t);
      DrainedText(Shifted(buf, r));
    }
  }

  // ------------------------------------------------------------- when it is right

  /** The first `cur` characters are the string in the buffer. */
  ghost predicate Tidy(buf: seq<char>, cur: nat)
  {
    cur < |buf| == USERBUF_SIZE + 1 && buf[USERBUF_SIZE] == NUL && Text(buf) == buf[..cur]
  }

  /** Nothing but NUL behind the string in the buffer. */
  ghost predicate Clean(buf: seq<char>)
  {
    forall i :: |Text(buf)| <= i < |buf| ==> buf[i] == NUL
  }

  lemma WrittenText(buf: seq<char>, cur: nat, data: seq<char>)
    requires Tidy(buf, cur) && NUL !in data && cur + |data| <= USERBUF_SIZE
    ensures Text(Written(buf, cur, data)) == buf[..cur] + data + Text(buf[cur + |data|..])
  {
    var w, n := Written(buf, cur, data), cur + |data|;
    var stale := Text(buf[n..]);
    TextEnds(buf[n..], USERBUF_SIZE - n);
    assert w[n..] == buf[n..];
    assert w[..n + |stale|] == buf[..cur] + data + stale;
    TextIs(w, n + |stale|);
  }

  /** What one call leaves, given what the buffer held and what arrived: the lines handed out are
      those of the pending text and the input, and the pending text is their rest. */
  ghost predicate Right(buf: seq<char>, cur: nat, data: seq<char>)
    requires Tidy(buf, cur) && cur + |data| <= USERBUF_SIZE
  {
    var all, text := buf[..cur] + data, Text(Written(buf, cur, data));
    var drained := Drained(Written(buf, cur, data));
    var cur' := Wrap(cur + |data| - (|text| - |Rest(text)|));
    Lines(text) == Lines(all) && Tidy(drained, cur') && drained[..cur'] == Rest(all)
  }

  /** A call is right exactly when the input ends at a NUL: `read` puts none there, so that whatever
      an earlier move left behind the pending text counts as typed. */
  lemma RightIff(buf: seq<char>, cur: nat, data: seq<char>)
    requires Tidy(buf, cur) && NUL !in data && cur + |data| <= USERBUF_SIZE
    ensures Right(buf, cur, data) <==> buf[cur + |data|] == NUL
  {
    hide Lines, Rest, Drained;
    var all, w := buf[..cur] + data, Written(buf, cur, data);
    var stale, text := Text(buf[cur + |data|..]), Text(w);
    WrittenText(buf, cur, data);
    TextAt(buf[cur + |data|..], 0);
    DrainedText(w);
    SplitInTwo(all, stale);
    assert text == all + stale;
    if stale == [] {
      assert all + stale == all;
    } else {
      StaleCounts(Rest(all), stale);
    }
  }

  lemma StaleCounts(rest: seq<char>, stale: seq<char>)
    requires '\n' !in rest
    ensures Lines(rest + stale) != [] || Rest(rest + stale) == rest + stale
  {
  }

  /** Every line fits into the buffer beside all that is pending when it is taken. */
  ghost predicate Fits(s: seq<char>)
    decreases |s|
  {
    var r := Newline(s);
    |s| <= USERBUF_SIZE && (r < |s| ==> |s| + r <= USERBUF_SIZE && Fits(s[r + 1..]))
  }

  /** Moving leaves no stale characters exactly when the line taken and the string it was taken from
      fit into the buffer side by side. */
  lemma ShiftCleanIff(buf: seq<char>, r: nat)
    requires |buf| == USERBUF_SIZE + 1 && buf[USERBUF_SIZE] == NUL && r < |Text(buf)| && Clean(buf)
    ensures r < USERBUF_SIZE && (Clean(Shifted(buf, r)) <==> |Text(buf)| + r <= USERBUF_SIZE)
  {
    ShiftedText(buf, r);
    var t, moved, from := Text(buf), Shifted(buf, r), USERBUF_SIZE - r;
    if |t| + r > USERBUF_SIZE {
      TextAt(buf, from);
      TextEnds(buf, USERBUF_SIZE);
      assert moved[from] == buf[r := NUL][from];
    } else {
      forall i | |t| - r - 1 <= i < |buf|
        ensures moved[i] == NUL
      {
        assert moved[i] == if i < from then buf[i + r + 1] else buf[r := NUL][i];
      }
    }
  }

  /** Stale characters move along, but never go away. */
  lemma StaleStays(buf: seq<char>, r: nat)
    requires |buf| == USERBUF_SIZE + 1 && buf[USERBUF_SIZE] == NUL && r < |Text(buf)| && !Clean(buf)
    ensures r < USERBUF_SIZE && !Clean(Shifted(buf, r))
  {
    ShiftedText(buf, r);
    var i :| |Text(buf)| <= i < |buf| && buf[i] != NUL;
    assert Shifted(buf, r)[i - r - 1] == buf[i];
  }

  lemma {:induction false} DrainedStale(buf: seq<char>)
    requires |buf| == USERBUF_SIZE + 1 && buf[USERBUF_SIZE] == NUL && !Clean(buf)
    ensures !Clean(Drained(buf))
    decreases |Text(buf)|
  {
    hide Clean;
    var r := Newline(Text(buf));
    if r == |Text(buf)| {
      DrainedAlready(buf);
    } else {
      ShiftedText(buf, r);
      StaleStays(buf, r);
      DrainedOnce(buf);
      DrainedStale(Shifted(buf, r));
    }
  }

  /** A call that starts from a clean buffer leaves a clean one exactly when every line fits in
      beside what was pending when it was taken. */
  lemma {:induction false} DrainedCleanIff(buf: seq<char>)
    requires |buf| == USERBUF_SIZE + 1 && buf[USERBUF_SIZE] == NUL && Clean(buf)
    ensures Clean(Drained(buf)) <==> Fits(Text(buf))
    decreases |Text(buf)|
  {
    hide Clean, Shifted;
    var r := Newline(Text(buf));
    TextEnds(buf, USERBUF_SIZE);
    if r == |Text(buf)| {
      DrainedAlready(buf);
    } else {
      ShiftedText(buf, r);
      ShiftCleanIff(buf, r);
      DrainedOnce(buf);
      if Clean(Shifted(buf, r)) {
        DrainedCleanIff(Shifted(buf, r));
      } else {
        DrainedStale(Shifted(buf, r));
      }
    }
  }

  /** Only a clean buffer is safe: with anything left behind the pending text, some input goes
      wrong at the next call. */
  lemma AlwaysRightIff(buf: seq<char>, cur: nat)
    requires Tidy(buf, cur)
    ensures Clean(buf) <==>
              forall data: seq<char> :: NUL !in data && cur + |data| <= USERBUF_SIZE ==> Right(buf, cur, data)
  {
    hide Right, Text;
    if Clean(buf) {
      forall data: seq<char> | NUL !in data && cur + |data| <= USERBUF_SIZE
        ensures Right(buf, cur, data)
      {
        RightIff(buf, cur, data);
      }
    } else {
      var i :| |Text(buf)| <= i < |buf| && buf[i] != NUL;
      var data := seq(i - cur, _ => 'a');
      RightIff(buf, cur, data);
    }
  }

  /** A right call from a clean buffer with lines that fit leaves things ready for the next. */
  lemma FittingCall(buf: seq<char>, cur: nat, data: seq<char>)
    requires Tidy(buf, cur) && Clean(buf) && NUL !in data && cur + |data| <= USERBUF_SIZE && Fits(buf[..cur] + data)
    ensures Right(buf, cur, data) && Clean(Drained(Written(buf, cur, data)))
  {
    hide Right, Drained, Fits, Lines, Rest;
    RightIff(buf, cur, data);
    WrittenText(buf, cur, data);
    TextAt(buf[cur + |data|..], 0);
    assert buf[..cur] + data + [] == buf[..cur] + data;
    assert Clean(Written(buf, cur, data));
    DrainedCleanIff(Written(buf, cur, data));
  }

  class UserBuf {
    const buf: array<char>
    var cur: nat

    ghost predicate Valid()
      reads this, buf
    {
      buf.Length == USERBUF_SIZE + 1 && buf[USERBUF_SIZE] == NUL
    }

    constructor ()
      ensures Valid() && Tidy(buf[..], cur) && Clean(buf[..]) && cur == 0 && fresh(buf)
    {
      buf := new char[USERBUF_SIZE + 1](_ => NUL);
      cur := 0;
      new;
      TextIs(buf[..], 0);
    }

    /** `strchr` for a newline: it stops at the first NUL. */
    method FindNewline() returns (ret: int)
      requires Valid()
      ensures var t := Text(buf[..]); ret == if Newline(t) == |t| then -1 else Newline(t)
    {
      ghost var t := Text(buf[..]);
      ret := 0;
      while buf[ret] != '\n' && buf[ret] != NUL
        invariant 0 <= ret <= |t| && ret <= USERBUF_SIZE && '\n' !in t[..ret]
        decreases USERBUF_SIZE - ret
      {
        TextAt(buf[..], ret);
        assert t[..ret + 1] == t[..ret] + [buf[ret]];
        ret := ret + 1;
      }
      TextAt(buf[..], ret);
      if buf[ret] == '\n' {
        NewlineIs(t, ret);
      } else {
        assert t[..ret] == t;
        ret := -1;
      }
    }

    /** Hands out the line before the newline at `r` and moves the rest to the front. */
    method TakeLine(r: nat) returns (line: seq<char>)
      requires Valid() && r < |Text(buf[..])|
      modifies this`cur, buf
      ensures Valid() && buf[..] == Shifted(old(buf[..]), r) && cur == Wrap(old(cur) - (r + 1))
      ensures line == old(Text(buf[..]))[..r] && Text(buf[..]) == old(Text(buf[..]))[r + 1..]
    {
      ShiftedText(buf[..], r);
      line := buf[..r];
      buf[r] := NUL;
      forall i | 0 <= i < USERBUF_SIZE - r {
        buf[i] := buf[i + r + 1];
      }
      assert buf[..] == Shifted(old(buf[..]), r);
      cur := Wrap(cur - (r + 1));
    }

    /** `read`: what arrives goes behind what is counted as pending. */
    method Receive(data: seq<char>)
      requires Valid() && cur + |data| <= USERBUF_SIZE
      modifies this`cur, buf
      ensures Valid() && buf[..] == Written(old(buf[..]), old(cur), data) && cur == old(cur) + |data|
    {
      forall i | 0 <= i < |data| {
        buf[cur + i] := data[i];
      }
      assert buf[..] == Written(old(buf[..]), cur, data);
      cur := cur + |data|;
    }

    /** One call of `process_user_input`, given the characters that `read` delivers, which are no
        more than it was asked for. The lines are those of the string that is then in the buffer,
        whatever that is; a full buffer stops the process. */
    method ProcessUserInput(data: seq<char>) returns (alive: bool, lines: seq<seq<char>>)
      requires Valid() && (cur < USERBUF_SIZE - 1 ==> cur + |data| <= USERBUF_SIZE)
      modifies this`cur, buf
      ensures Valid() && (alive <==> old(cur) < USERBUF_SIZE - 1)
      ensures !alive ==> buf[..] == old(buf[..]) && cur == old(cur) && lines == []
      ensures alive ==>
                var text := Text(Written(old(buf[..]), old(cur), data));
                && lines == Lines(text) && Text(buf[..]) == Rest(text)
                && cur == Wrap(old(cur) + |data| - (|text| - |Rest(text)|))
                && buf[..] == Drained(Written(old(buf[..]), old(cur), data))
    {
      hide Lines, Rest, Text, Wrap, Drained;
      lines := [];
      alive := cur < USERBUF_SIZE - 1;
      if !alive {
        return;
      }
      Receive(data);
      lines := Drain();
    }

    /** The loop over the complete lines. */
    method Drain() returns (lines: seq<seq<char>>)
      requires Valid() && cur <= USERBUF_SIZE
      modifies this`cur, buf
      ensures Valid() && buf[..] == Drained(old(buf[..]))
      ensures var text := old(Text(buf[..]));
              && lines == Lines(text) && Text(buf[..]) == Rest(text)
              && cur == Wrap(old(cur) - (|text| - |Rest(text)|))
    {
      hide Lines, Rest, Text, Newline, Wrap, Drained, Shifted;
      ghost var text, start := Text(buf[..]), cur;
      lines := [];
      assert cur == Wrap(start) by { WrapSmall(cur); }
      var ret := FindNewline();
      while ret != -1
        invariant Valid() && |Text(buf[..])| <= |text| && cur == Wrap(start - (|text| - |Text(buf[..])|))
        invariant var t := Text(buf[..]); ret == if Newline(t) == |t| then -1 else Newline(t)
        invariant Lines(text) == lines + Lines(Text(buf[..])) && Rest(text) == Rest(Text(buf[..]))
        invariant Drained(buf[..]) == Drained(old(buf[..]))
        decreases |Text(buf[..])|
      {
        OneLine(Text(buf[..]));
        DrainedOnce(buf[..]);
        WrapWraps(start - (|text| - |Text(buf[..])|), -(ret + 1));
        var line := TakeLine(ret);
        Behind(lines, line, Lines(Text(buf[..])));
        lines := lines + [line];
        ret := FindNewline();
      }
      NoLine(Text(buf[..]));
      DrainedAlready(buf[..]);
    }

    /** However the input is cut up, the lines handed out are those of the whole stream, provided that
        they fit. It stops early when `read` would not deliver a fragment at once. */
    method ProcessAll(fragments: seq<seq<char>>) returns (alive: bool, lines: seq<seq<char>>)
      requires Valid() && Tidy(buf[..], cur) && Clean(buf[..]) && cur == 0
      modifies this`cur, buf
      ensures Valid()
      ensures AllFit(fragments, |fragments|) ==>
                && alive && lines == Lines(Flatten(fragments))
                && Tidy(buf[..], cur) && buf[..cur] == Rest(Flatten(fragments))
    {
      hide Lines, Rest, Text, Drained, Fits, Wrap;
      lines, alive := [], true;
      assert Lines([]) == [] && Rest([]) == [] by { NothingYet(); }
      for k := 0 to |fragments|
        invariant Valid()
        invariant AllFit(fragments, k) ==>
                    && alive && Tidy(buf[..], cur) && Clean(buf[..])
                    && lines == Lines(Flatten(fragments[..k])) && buf[..cur] == Rest(Flatten(fragments[..k]))
      {
        assert fragments[..k + 1][..k] == fragments[..k];
        var here := cur >= USERBUF_SIZE - 1 || cur + |fragments[k]| <= USERBUF_SIZE;
        if AllFit(fragments, k + 1) {
          FragmentFits(buf[..], cur, fragments, k);
        }
        if !here {
          return false, lines;
        }
        var more;
        alive, more := ProcessUserInput(fragments[k]);
        lines := lines + more;
      }
      assert fragments[..|fragments|] == fragments;
    }
  }

  /** Each of the first `n` fragments is free of NUL and fits beside what is pending before it. */
  ghost predicate AllFit(fragments: seq<seq<char>>, n: nat)
    requires n <= |fragments|
  {
    forall k :: 0 <= k < n ==>
      var pending := Rest(Flatten(fragments[..k]));
      NUL !in fragments[k] && |pending| < USERBUF_SIZE - 1 && Fits(pending + fragments[k])
  }

  lemma FragmentFits(buf: seq<char>, cur: nat, fragments: seq<seq<char>>, k: nat)
    requires k < |fragments| && AllFit(fragments, k + 1)
    requires Tidy(buf, cur) && Clean(buf) && buf[..cur] == Rest(Flatten(fragments[..k]))
    ensures cur < USERBUF_SIZE - 1 && cur + |fragments[k]| <= USERBUF_SIZE
    ensures Right(buf, cur, fragments[k]) && Clean(Drained(Written(buf, cur, fragments[k])))
    ensures var before, after := Flatten(fragments[..k]), Flatten(fragments[..k + 1]);
            && Lines(after) == Lines(before) + Lines(Rest(before) + fragments[k])
            && Rest(after) == Rest(Rest(before) + fragments[k])
  {
    hide Lines, Rest, Text, Drained, Fits, Wrap, Right, Clean;
    FitsIsShort(buf[..cur] + fragments[k]);
    FittingCall(buf, cur, fragments[k]);
    assert fragments[..k + 1][..k] == fragments[..k];
    SplitInTwo(Flatten(fragments[..k]), fragments[k]);
  }

  lemma NothingYet()
    ensures Lines([]) == [] && Rest([]) == []
  {
  }

  lemma FitsIsShort(s: seq<char>)
    requires Fits(s)
    ensures |s| <= USERBUF_SIZE
  {
  }
}
