/**
 * `src/components/ChatInterface.tsx`: the chat panel of a consultation. Its
 * list is loaded from the store; sending trims the draft, refuses a blank
 * one, stores the message, appends it to the list and clears the draft.
 * The message time is the clock's value, passed in as an integer.
 */
module ChatInterface {
  import opened Seqs
  import opened Records
  import opened Database

  /** The characters `String.prototype.trim` removes: white space and line terminators. */
  predicate IsSpace(c: char)
  {
    var n := c as int;
    // tab, vertical tab, form feed, space, no-break space, byte-order mark
    n == 0x09 || n == 0x0B || n == 0x0C || n == 0x20 || n == 0xA0 || n == 0xFEFF
    // line feed, carriage return, line and paragraph separators
    || n == 0x0A || n == 0x0D || n == 0x2028 || n == 0x2029
    // the other space separators of Unicode
    || n == 0x1680 || 0x2000 <= n <= 0x200A || n == 0x202F || n == 0x205F || n == 0x3000
  }

  /** Drops leading white space. */
  function TrimStart(s: string): (r: string)
    ensures |r| <= |s| && r == s[|s| - |r|..]
    ensures forall j :: 0 <= j < |s| - |r| ==> IsSpace(s[j])
    ensures r == [] || !IsSpace(r[0])
  {
    if |s| > 0 && IsSpace(s[0]) then TrimStart(s[1..]) else s
  }

  /** Drops trailing white space. */
  function TrimEnd(s: string): (r: string)
    ensures |r| <= |s| && r == s[..|r|]
    ensures forall j :: |r| <= j < |s| ==> IsSpace(s[j])
    ensures r == [] || !IsSpace(r[|r| - 1])
  {
    if |s| > 0 && IsSpace(s[|s| - 1]) then TrimEnd(s[..|s| - 1]) else s
  }

  /** `s.trim()`: the text between the first and the last character that is not white space. */
  function Trim(s: string): (r: string)
    ensures |r| <= |s|
    ensures r == [] || (!IsSpace(r[0]) && !IsSpace(r[|r| - 1]))
    ensures r == [] <==> forall j :: 0 <= j < |s| ==> IsSpace(s[j])
    ensures var k := |s| - |TrimStart(s)|;
      && k + |r| <= |s| && r == s[k..k + |r|]
      && (forall j :: 0 <= j < k ==> IsSpace(s[j]))
      && (forall j :: k + |r| <= j < |s| ==> IsSpace(s[j]))
  {
    var t := TrimStart(s);
    var r := TrimEnd(t);
    TrimmedStretch(s, t, r);
    r
  }

  /**
   * The facts behind `Trim`: when `t` is `s` without its leading white space
   * and `r` is `t` without its trailing white space, `r` is the stretch of
   * `s` that starts where `t` does, with only white space around it.
   */
  lemma TrimmedStretch(s: string, t: string, r: string)
    requires |t| <= |s| && t == s[|s| - |t|..]
    requires forall j :: 0 <= j < |s| - |t| ==> IsSpace(s[j])
    requires t == [] || !IsSpace(t[0])
    requires |r| <= |t| && r == t[..|r|]
    requires forall j :: |r| <= j < |t| ==> IsSpace(t[j])
    requires r == [] || !IsSpace(r[|r| - 1])
    ensures r == [] || (!IsSpace(r[0]) && !IsSpace(r[|r| - 1]))
    ensures r == [] <==> forall j :: 0 <= j < |s| ==> IsSpace(s[j])
    ensures var k := |s| - |t|;
      && k + |r| <= |s| && r == s[k..k + |r|]
      && (forall j :: k + |r| <= j < |s| ==> IsSpace(s[j]))
  {
    var k := |s| - |t|;
    assert s[k..k + |r|] == t[..|r|];
    forall j | k + |r| <= j < |s|
      ensures IsSpace(s[j])
    {
      assert s[j] == t[j - k];
    }
    if r != [] {
      assert r[0] == t[0] == s[k];
    }
  }

  /** Trimming twice is trimming once. */
  lemma TrimIdempotent(s: string)
    ensures Trim(Trim(s)) == Trim(s)
  {
    var t := Trim(s);
    assert TrimStart(t) == t;
    assert TrimEnd(t) == t;
  }

  class ChatState {
    const db: Store
    const consultationId: Id
    const userId: Id
    const userType: SenderType
    var messages: seq<Message>
    var newMessage: string

    constructor (db: Store, consultationId: Id, userId: Id, userType: SenderType)
      ensures this.db == db && this.consultationId == consultationId
      ensures this.userId == userId && this.userType == userType
      ensures messages == [] && newMessage == ""
    {
      this.db := db;
      this.consultationId := consultationId;
      this.userId := userId;
      this.userType := userType;
      messages := [];
      newMessage := "";
    }

    /** `loadMessages` (on mount and on each poll): the consultation's messages, oldest first. */
    method LoadMessages()
      modifies this`messages
      ensures messages == ConsultationMessages(db.messages, consultationId)
    {
      messages := ConsultationMessages(db.messages, consultationId);
    }

    /**
     * `sendMessage`: a blank draft sends nothing. Otherwise the trimmed draft
     * is stored as an unread message from this user, appended to the list,
     * and the draft is cleared. `newId` is the generated id, `now` the time.
     */
    method SendMessage(newId: Id, now: int) returns (sent: bool)
      requires FreshKey(db.messages, MessageKey, newId)
      modifies db`messages, this`messages, this`newMessage
      ensures sent <==> Trim(old(newMessage)) != []
      ensures !sent ==> db.messages == old(db.messages) && messages == old(messages) && newMessage == old(newMessage)
      ensures sent ==>
        var m := Message(newId, consultationId, userId, userType, Trim(old(newMessage)), now, false);
        db.messages == old(db.messages) + [m] && messages == old(messages) + [m] && newMessage == ""
      ensures sent ==> IsCurrentUser(messages[|messages| - 1])
    {
      var content := Trim(newMessage);
      if content == [] {
        return false;
      }
      var created := db.CreateMessage(Message("", consultationId, userId, userType, content, now, false), newId);
      messages := messages + [created];
      newMessage := "";
      sent := true;
    }

    /** A message is drawn on the right, as the user's own, exactly when this user sent it. */
    function IsCurrentUser(m: Message): (mine: bool)
      ensures mine <==> m.senderId == userId
    {
      m.senderId == userId
    }
  }
}
