/** Chat messages and the bounded feeds (`[...feed.slice(-49), msg]`) that hold them. */
module Chat {
  import opened Wrappers

  /** A global or clan message; `rank` is the sender's tier index at posting time, `clanIdToJoin`
      marks a recruitment broadcast. */
  datatype ChatMessage = ChatMessage(id: string, sender: string, text: string, rank: nat,
                                     isUser: bool, timestamp: int, clanIdToJoin: Option<string>)

  const FeedLimit: nat := 50

  /** Keeps at most the 49 newest entries, then appends `msg`: the result is the newest part of
      `feed + [msg]`, of length `min(|feed|, 49) + 1`. */
  function AppendBounded(feed: seq<ChatMessage>, msg: ChatMessage): (r: seq<ChatMessage>)
    ensures |r| == (if |feed| < FeedLimit - 1 then |feed| else FeedLimit - 1) + 1
  {
    var kept := if |feed| <= FeedLimit - 1 then feed else feed[|feed| - (FeedLimit - 1)..];
    kept + [msg]
  }

  /** What `AppendBounded` keeps is exactly the newest part of `feed + [msg]`. */
  lemma AppendKeepsNewest(feed: seq<ChatMessage>, msg: ChatMessage)
    ensures var r := AppendBounded(feed, msg);
            r == (feed + [msg])[|feed| + 1 - |r|..]
  {
    var kept := if |feed| <= FeedLimit - 1 then feed else feed[|feed| - (FeedLimit - 1)..];
    assert kept + [msg] == (feed + [msg])[|feed| - |kept|..];
  }

  /** A feed never holds more than 50 messages, the newest is last, and nothing older than the
      dropped prefix is lost. */
  lemma FeedStaysBounded(feed: seq<ChatMessage>, msg: ChatMessage)
    ensures |AppendBounded(feed, msg)| <= FeedLimit
    ensures AppendBounded(feed, msg)[|AppendBounded(feed, msg)| - 1] == msg
    ensures |feed| < FeedLimit ==> AppendBounded(feed, msg) == feed + [msg]
  {
    AppendKeepsNewest(feed, msg);
  }
}
