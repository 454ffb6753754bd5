/** `send_message` wrapped by `uniq_messages_only`: a sender that drops a
    message equal to the one it last accepted. */
module Notifications {

  /** What one call of the wrapped `send_message` did: dropped the message
      as a repeat, or handed it to the bot, which delivered it or raised
      TelegramError. */
  datatype SendOutcome = Suppressed | Delivered | TelegramFailed

  datatype Notified = Notified(lastMessage: string, outcome: SendOutcome)

  /** One call of the wrapper, from the remembered `last_message`.
      `delivered` is what `bot.send_message` would do if it were called. */
  function Notify(lastMessage: string, message: string, delivered: bool): (r: Notified)
    ensures r.lastMessage == message
    ensures r.outcome.Suppressed? <==> message == lastMessage
    ensures r.outcome.Delivered? <==> message != lastMessage && delivered
  {
    if message == lastMessage then Notified(lastMessage, Suppressed)
    else Notified(message, if delivered then Delivered else TelegramFailed)
  }

  /** The calls of `bot.send_message` one call of the wrapper made. */
  function Attempted(message: string, outcome: SendOutcome): seq<string> {
    if outcome.Suppressed? then [] else [message]
  }

  /** `bot.send_message` calls made by a run of wrapper calls, each with
      the delivery outcome its send would have. */
  function Replay(lastMessage: string, calls: seq<(string, bool)>): seq<string>
    decreases |calls|
  {
    if calls == [] then []
    else
      var n := Notify(lastMessage, calls[0].0, calls[0].1);
      Attempted(calls[0].0, n.outcome) + Replay(n.lastMessage, calls[1..])
  }

  /** The message the i-th call is compared with: the one before it, or
      the remembered message for the first call. */
  function Previous(lastMessage: string, calls: seq<(string, bool)>, i: nat): string
    requires i < |calls|
  {
    if i == 0 then lastMessage else calls[i - 1].0
  }

  /** Reference definition: the calls whose message differs from the one
      just before, in order, whatever the deliveries were. */
  function Changes(lastMessage: string, calls: seq<(string, bool)>): seq<string>
    decreases |calls|
  {
    if calls == [] then []
    else
      var i := |calls| - 1;
      Changes(lastMessage, calls[..i]) +
        (if calls[i].0 != Previous(lastMessage, calls, i) then [calls[i].0] else [])
  }

  /** The sender, run over any sequence of calls, calls the bot exactly for
      the messages that differ from their predecessor: failed deliveries
      change nothing. */
  lemma {:induction false} ReplayIsChanges(lastMessage: string, calls: seq<(string, bool)>)
    ensures Replay(lastMessage, calls) == Changes(lastMessage, calls)
    decreases |calls|
  {
    if calls != [] {
      var n := Notify(lastMessage, calls[0].0, calls[0].1);
      ReplayIsChanges(n.lastMessage, calls[1..]);
      ChangesCons(lastMessage, calls);
    }
  }

  /** Changes, peeled off from the front. */
  lemma {:induction false} ChangesCons(lastMessage: string, calls: seq<(string, bool)>)
    requires calls != []
    ensures Changes(lastMessage, calls) ==
      (if calls[0].0 != lastMessage then [calls[0].0] else []) + Changes(calls[0].0, calls[1..])
    decreases |calls|
  {
    var i := |calls| - 1;
    if i == 0 {
      assert calls[..i] == [];
      assert calls[1..] == [];
    } else {
      ChangesCons(lastMessage, calls[..i]);
      assert calls[..i][1..] == calls[1..][..i - 1];
      assert calls[..i][0] == calls[0];
      assert calls[1..][i - 1] == calls[i];
      assert Previous(calls[0].0, calls[1..], i - 1) == Previous(lastMessage, calls, i);
    }
  }

  /** Two identical calls in a row reach the bot at most once. */
  lemma RepeatReachesBotOnce(lastMessage: string, message: string, first: bool, second: bool)
    ensures Replay(lastMessage, [(message, first), (message, second)]) ==
      if message == lastMessage then [] else [message]
  {
    var calls := [(message, first), (message, second)];
    assert calls[1..] == [(message, second)] && calls[1..][1..] == [];
    assert Replay(message, calls[1..]) == [];
  }

  /** Two different consecutive messages (the first new) both reach the bot. */
  lemma DifferentMessagesBothSent(lastMessage: string, m1: string, m2: string, d1: bool, d2: bool)
    requires m1 != lastMessage && m2 != m1
    ensures Replay(lastMessage, [(m1, d1), (m2, d2)]) == [m1, m2]
  {
    var calls := [(m1, d1), (m2, d2)];
    assert calls[1..] == [(m2, d2)] && calls[1..][1..] == [];
    assert Replay(m1, calls[1..]) == [m2];
  }

  /** The sender starts with `last_message = ''`, so an empty first message
      is dropped. */
  lemma EmptyFirstMessageSuppressed(delivered: bool)
    ensures Notify("", "", delivered).outcome == Suppressed
  {
  }

  /** `last_message` is set before the bot is called: after a send that
      raised TelegramError an immediate retry of the same message is
      dropped. */
  lemma FailedSendNotRetried(lastMessage: string, message: string, retry: bool)
    requires Notify(lastMessage, message, false).outcome == TelegramFailed
    ensures Notify(Notify(lastMessage, message, false).lastMessage, message, retry).outcome == Suppressed
  {
  }

  /** The wrapped sender. `lastMessage` is the closure's `last_message`;
      `sent` records every call that reached `bot.send_message`. */
  class Notifier {
    var lastMessage: string
    ghost var sent: seq<string>

    constructor ()
      ensures lastMessage == "" && sent == []
    {
      lastMessage := "";
      sent := [];
    }

    /** `send_message(bot, message)`. `delivered` stands for the bot's
        answer: false when `bot.send_message` raises TelegramError, which
        the caller sees as `outcome == TelegramFailed`. */
    method Send(message: string, delivered: bool) returns (outcome: SendOutcome)
      modifies this
      ensures Notified(lastMessage, outcome) == Notify(old(lastMessage), message, delivered)
      ensures sent == old(sent) + Attempted(message, outcome)
    {
      if message == lastMessage {
        outcome := Suppressed;
      } else {
        lastMessage := message;
        sent := sent + [message];
        outcome := if delivered then Delivered else TelegramFailed;
      }
    }
  }
}
