// An NPC's chat memory (src/game/npc/npc_memory.py): an append-only
// history whose entries carry their position, rendered as a bounded
// window of recent turns.
module Memory {
  import opened Support

  datatype ChatRole = PlayerRole | NpcRole

  /** `ChatRoleEnum` values. */
  function RoleValue(r: ChatRole): (v: string)
    ensures v == "player" <==> r == PlayerRole
    ensures v == "npc" <==> r == NpcRole
  {
    match r
    case PlayerRole => "player"
    case NpcRole => "npc"
  }

  datatype ChatHistory = ChatHistory(role: ChatRole, text: string, idx: int)

  /** One rendered line, `role: text` and a newline. */
  function Line(c: ChatHistory): string {
    RoleValue(c.role) + ": " + c.text + "\n"
  }

  /** The entries' lines, oldest first. */
  function Render(entries: seq<ChatHistory>): string {
    if entries == [] then ""
    else Render(entries[..|entries| - 1]) + Line(entries[|entries| - 1])
  }

  /** Rendering distributes over concatenation, so the rendering of a
      history begins with the rendering of any earlier history. */
  lemma {:induction false} RenderAppend(a: seq<ChatHistory>, b: seq<ChatHistory>)
    ensures Render(a + b) == Render(a) + Render(b)
  {
    if b == [] {
      assert a + b == a;
    } else {
      var b', x := b[..|b| - 1], b[|b| - 1];
      assert (a + b)[..|a + b| - 1] == a + b';
      assert (a + b)[|a + b| - 1] == x;
      RenderAppend(a, b');
      calc {
        Render(a + b);
        { assert a + b != []; }
        Render((a + b)[..|a + b| - 1]) + Line((a + b)[|a + b| - 1]);
        Render(a + b') + Line(x);
        (Render(a) + Render(b')) + Line(x);
        Render(a) + (Render(b') + Line(x));
        Render(a) + Render(b);
      }
    }
  }

  /** The entries `to_context` renders: `chat_history[-turn_limit*2:]`. */
  function Window(history: seq<ChatHistory>, turnLimit: int): seq<ChatHistory> {
    TailSlice(history, -turnLimit * 2)
  }

  /** For a positive limit, the window is the last min(n, 2 * limit)
      entries; a zero limit keeps everything, because -0 is 0; a negative
      limit drops the first 2 * |limit| entries. */
  lemma WindowIsRecentTurns(history: seq<ChatHistory>, turnLimit: int)
    ensures turnLimit >= 1 ==>
              Window(history, turnLimit)
              == history[if 2 * turnLimit < |history| then |history| - 2 * turnLimit else 0..]
    ensures turnLimit == 0 ==> Window(history, turnLimit) == history
    ensures turnLimit < 0 ==>
              Window(history, turnLimit)
              == history[if -2 * turnLimit < |history| then -2 * turnLimit else |history|..]
  {
    if turnLimit >= 0 {
      LastElements(history, 2 * turnLimit);
    }
  }

  class NPCMemory {
    var currIndex: int
    var playerName: Option<string>
    var chatHistory: seq<ChatHistory>

    /** The counter is the history's length and every entry records its
        own position. */
    ghost predicate Valid()
      reads this
    {
      && currIndex == |chatHistory|
      && forall i :: 0 <= i < |chatHistory| ==> chatHistory[i].idx == i
    }

    constructor ()
      ensures currIndex == 0 && playerName == None && chatHistory == []
      ensures Valid()
    {
      currIndex := 0;
      playerName := None;
      chatHistory := [];
    }

    /** `add_chat_history`: append one entry stamped with the current
        index, then advance the index.  Earlier entries are untouched. */
    method AddChatHistory(role: ChatRole, text: string)
      modifies this
      ensures chatHistory == old(chatHistory) + [ChatHistory(role, text, old(currIndex))]
      ensures currIndex == old(currIndex) + 1
      ensures playerName == old(playerName)
      ensures old(Valid()) ==> Valid()
    {
      chatHistory := chatHistory + [ChatHistory(role, text, currIndex)];
      currIndex := currIndex + 1;
    }

    /** `to_context`: the recent window (two turns unless a limit is
        given), one line per entry, oldest first.  Reads the memory and
        changes nothing. */
    method ToContext(turnLimit: int := 2) returns (res: string)
      ensures res == Render(Window(chatHistory, turnLimit))
    {
      var window := TailSlice(chatHistory, -turnLimit * 2);
      res := "";
      for i := 0 to |window|
        invariant res == Render(window[..i])
      {
        assert window[..i + 1][..i] == window[..i];
        res := res + Line(window[i]);
      }
      assert window[..|window|] == window;
    }
  }

  /** Two appends starting from a valid memory: the two entries follow the
      old history in order and the rendering gains exactly their lines. */
  lemma TwoAppendsRender(h: seq<ChatHistory>, p: ChatHistory, n: ChatHistory)
    ensures Render(h + [p] + [n]) == Render(h) + Line(p) + Line(n)
  {
    RenderAppend(h, [p]);
    RenderAppend(h + [p], [n]);
    assert Render([p]) == Line(p) by { assert [p][..0] == []; }
    assert Render([n]) == Line(n) by { assert [n][..0] == []; }
  }
}
