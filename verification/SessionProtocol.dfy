/**
 The order of a connection's outbound messages:
 create (mute (unmute append* (mute | commit mute))*)?, cut off anywhere or ended by session.close,
 where a commit needs at least one append since its unmute.
 */
module SessionProtocol {
  import opened RealtimeTransport

  datatype Phase =
    | Fresh       // nothing sent
    | Created     // session.create
    | Muted       // between recordings
    | Unmuted     // recording, nothing appended yet
    | Streaming   // recording, at least one append
    | Committed   // a commit not yet followed by its mute
    | Closed      // session.close
    | Broken

  function After(p: Phase, m: Message): Phase {
    match (p, m)
    case (Fresh, SessionCreate) => Created
    case (Created, Mute) => Muted
    case (Muted, Unmute) => Unmuted
    case (Unmuted, Append) => Streaming
    case (Streaming, Append) => Streaming
    case (Unmuted, Mute) => Muted
    case (Streaming, Mute) => Muted
    case (Streaming, Commit) => Committed
    case (Committed, Mute) => Muted
    case (Muted, SessionClose) => Closed
    case (Unmuted, SessionClose) => Closed
    case (Streaming, SessionClose) => Closed
    case (Committed, SessionClose) => Closed
    case _ => Broken
  }

  function PhaseOf(sent: seq<Message>): Phase {
    if sent == [] then Fresh else After(PhaseOf(sent[..|sent| - 1]), sent[|sent| - 1])
  }

  lemma {:induction false} PhaseOfSend(sent: seq<Message>, m: Message)
    ensures PhaseOf(sent + [m]) == After(PhaseOf(sent), m)
  {
    assert (sent + [m])[..|sent|] == sent;
  }

  /** Every prefix of a well-ordered trace is well ordered. */
  lemma {:induction false} PrefixUnbroken(sent: seq<Message>, i: nat)
    requires i <= |sent| && PhaseOf(sent) != Broken
    ensures PhaseOf(sent[..i]) != Broken
    decreases |sent|
  {
    if i == |sent| {
      assert sent[..i] == sent;
    } else {
      PrefixUnbroken(sent[..|sent| - 1], i);
      assert sent[..|sent| - 1][..i] == sent[..i];
    }
  }

  /** The position of the unmute that opened the current recording. */
  predicate OpenSince(sent: seq<Message>, u: nat) {
    && 2 <= u < |sent| && sent[0] == SessionCreate && sent[1] == Mute && sent[u] == Unmute
    && forall k :: u < k < |sent| ==> sent[k] == Append
  }

  /** What each phase says about the messages behind it. */
  lemma {:induction false} PhaseMeaning(sent: seq<Message>)
    ensures PhaseOf(sent) == Fresh <==> sent == []
    ensures PhaseOf(sent) == Created ==> sent == [SessionCreate]
    ensures PhaseOf(sent) == Muted || PhaseOf(sent) == Committed ==>
      |sent| >= 2 && sent[0] == SessionCreate && sent[1] == Mute
    ensures PhaseOf(sent) == Unmuted || PhaseOf(sent) == Streaming ==> exists u: nat :: OpenSince(sent, u)
    ensures PhaseOf(sent) == Unmuted ==> |sent| > 0 && sent[|sent| - 1] == Unmute
    ensures PhaseOf(sent) == Streaming ==> |sent| > 0 && sent[|sent| - 1] == Append
    decreases |sent|
  {
    if sent != [] {
      var before := sent[..|sent| - 1];
      var m := sent[|sent| - 1];
      PhaseMeaning(before);
      if PhaseOf(sent) == Unmuted {
        assert OpenSince(sent, |sent| - 1);
      } else if PhaseOf(sent) == Streaming {
        var u: nat :| OpenSince(before, u);
        assert OpenSince(sent, u);
      } else if PhaseOf(sent) == Muted && PhaseOf(before) == Created {
        assert before == [SessionCreate];
      } else if PhaseOf(before) == Unmuted || PhaseOf(before) == Streaming {
        var u: nat :| OpenSince(before, u);
        assert sent[0] == before[0] && sent[1] == before[1];
      } else if PhaseOf(before) == Committed {
        assert sent[0] == before[0] && sent[1] == before[1];
      }
    }
  }

  /** Every append follows a create, a mute and an unmute with only appends since. */
  lemma {:induction false} AppendsFollowUnmute(sent: seq<Message>, i: nat)
    requires PhaseOf(sent) != Broken && i < |sent| && sent[i] == Append
    ensures exists u: nat :: u < i && OpenSince(sent[..i], u)
  {
    PrefixUnbroken(sent, i + 1);
    assert sent[..i + 1][..i] == sent[..i] && sent[..i + 1][i] == Append;
    PhaseMeaning(sent[..i]);
    var u: nat :| OpenSince(sent[..i], u);
  }

  /** Every commit follows at least one append of its own recording, and a mute follows it. */
  lemma {:induction false} CommitsFollowAppend(sent: seq<Message>, i: nat)
    requires PhaseOf(sent) != Broken && i < |sent| && sent[i] == Commit
    ensures exists u: nat :: u + 1 < i && OpenSince(sent[..i], u)
    ensures i + 1 < |sent| ==> sent[i + 1] == Mute || sent[i + 1] == SessionClose
  {
    PrefixUnbroken(sent, i + 1);
    assert sent[..i + 1][..i] == sent[..i] && sent[..i + 1][i] == Commit;
    PhaseMeaning(sent[..i]);
    var u: nat :| OpenSince(sent[..i], u);
    assert sent[..i][i - 1] == Append;
    assert u + 1 < i;
    if i + 1 < |sent| {
      PrefixUnbroken(sent, i + 2);
      assert sent[..i + 2][..i + 1] == sent[..i + 1] && sent[..i + 2][i + 1] == sent[i + 1];
    }
  }
}
