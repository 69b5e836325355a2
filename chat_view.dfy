/** The two pieces of logic in the chat view (src/frontend/components/ChatView.tsx): the
    abbreviated working directory in its header and the guard in front of sending. */
module ChatView {
  import opened Values
  import opened Text
  import opened Store
  import opened HomePath
  import DirectoryPicker

  /** `abbreviateCwd`: no directory for an absent or empty one; "~" in place of a leading
      `/home/<user>`; any other directory unchanged. */
  function AbbreviateCwd(cwd: Option<string>): (r: Option<string>)
    ensures r.Some? <==> Truthy(cwd)
    ensures Truthy(cwd) && MatchHome(cwd.value).None? ==> r == cwd
    ensures Truthy(cwd) && MatchHome(cwd.value).Some? ==>
      |r.value| >= 1 && r.value[0] == '~' && MatchHome(cwd.value).value + r.value[1..] == cwd.value
  {
    if !Truthy(cwd) then None
    else
      var m := MatchHome(cwd.value);
      if m.Some? then
        assert cwd.value == m.value + cwd.value[|m.value|..];
        Some("~" + cwd.value[|m.value|..])
      else cwd
  }

  /** The header and the directory picker abbreviate a directory the same way, although the
      picker also tests that the match is a prefix. */
  lemma CwdAgreesWithPicker(cwd: string)
    requires cwd != ""
    ensures AbbreviateCwd(Some(cwd)) == Some(DirectoryPicker.AbbreviatePath(cwd))
  {
    UnderHomeIffMatch(cwd);
  }

  /** What a submit does: the text handed to `onSend`, if any, and the input box afterwards. */
  datatype Submitted = Submitted(sent: Option<string>, input: string)

  /** `conversation?.status === "archived"` */
  predicate IsArchived(conversation: Option<Conversation>) {
    conversation.Some? && conversation.value.status == ArchivedConversation
  }

  /** `handleSubmit`: the trimmed input is sent, and the box cleared, only when the trimmed
      input is non-empty, no query is running and the conversation is not archived; otherwise
      nothing is sent and the input stays as typed. */
  function HandleSubmit(input: string, isQuerying: bool, conversation: Option<Conversation>): (o: Submitted)
    ensures o.sent.Some? <==> Trim(input) != "" && !isQuerying && !IsArchived(conversation)
    ensures o.sent.Some? ==> o.sent.value == Trim(input) && o.input == ""
    ensures o.sent.None? ==> o.input == input
  {
    var text := Trim(input);
    if text == "" || isQuerying || IsArchived(conversation) then Submitted(None, input)
    else Submitted(Some(text), "")
  }

  /** A sent message is never blank, carries no surrounding white space, and is a piece of
      what was typed; input made only of white space is never sent. */
  lemma SentText(input: string, isQuerying: bool, conversation: Option<Conversation>)
    ensures var o := HandleSubmit(input, isQuerying, conversation);
      && (o.sent.Some? ==> (o.sent.value != "" && !IsSpace(o.sent.value[0])
            && !IsSpace(o.sent.value[|o.sent.value| - 1])
            && exists lo :: OccursAt(input, o.sent.value, lo)))
      && ((forall i :: 0 <= i < |input| ==> IsSpace(input[i])) ==> o.sent.None?)
  {
  }
}
