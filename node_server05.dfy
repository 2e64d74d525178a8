/** The `mySendMessage` of backups/node-server05.js, a fragment meant to replace the main page's:
    it reads the name field at send time instead of the name fixed at connection. */
module Server05 {
  import opened Text
  import opened Codec
  import opened Session
  import ChatClient
  import ChatClientPage

  type Page = ChatClient.Page

  function SendMessage(p: Page): Page {
    var msg := Trim(p.messageInput);
    if msg == "" then p
    else if IsOpen(p.socket) then ChatClient.Transmit(p, Trim(p.nameInput) + ": " + msg, msg)
    else ChatClient.Notify(p, NotConnected)
  }

  /** A message empty once trimmed changes nothing. Otherwise, on an open socket, the frame is
      the trimmed name field as it is now, ": " and the message, the echo shows the message
      without the name, and the input is cleared; on any other socket nothing is sent, the input
      is kept and an error line is added. */
  lemma SendBehaviour(p: Page)
    ensures var r := SendMessage(p);
      var msg := Trim(p.messageInput);
      && (msg == "" ==> r == p)
      && (msg != "" && IsOpen(p.socket) ==>
            r == p.(sent := p.sent + [WireForm(Trim(p.nameInput), msg)],
                    log := p.log + [Bubble(Raw(msg), true)], messageInput := ""))
      && (msg != "" && !IsOpen(p.socket) ==>
            r == p.(log := p.log + [SystemLine(NotConnected)]))
  {
    if Trim(p.messageInput) == "" {
    } else if IsOpen(p.socket) {
    } else {
    }
  }

  /** While the fields are locked the name field still holds the name in use, so the fragment
      sends what the main page sends for a chat message. */
  lemma SameAsMainWhileLocked(p: Page)
    requires ChatClient.Inv(p) && p.locked
    ensures SendMessage(p) == ChatClient.SendMessage(p, false)
  {
    var msg := Trim(p.messageInput);
    assert Prefix(false) + msg == msg;
  }

  /** Once the fields are unlocked (after a close) the name field can be edited, and a message
      sent on a socket that is still open then carries the edited name. */
  lemma EditedNameIsSent(p: Page, newName: string)
    requires IsOpen(p.socket) && Trim(p.messageInput) != ""
    ensures var r := SendMessage(p.(nameInput := newName));
      r.sent == p.sent + [WireForm(Trim(newName), Trim(p.messageInput))]
  {
  }

  /** `mySendMessage`, on the main page's object. */
  method SendMessageOn(page: ChatClientPage.ChatPage)
    modifies page
    ensures page.Snapshot() == SendMessage(old(page.Snapshot()))
  {
    var msg := Trim(page.messageInput);
    if msg == "" {
      return;
    }
    var currentName := Trim(page.nameInput);
    var full := currentName + ": " + msg;
    if IsOpen(page.socket) {
      page.Transmit(full, msg);
    } else {
      page.Notify(NotConnected);
    }
  }
}
