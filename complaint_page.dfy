/**
 * The Chat Box (support) page: the channel colour of a case, the tabs, selecting a case and the
 * message box.
 */
module ComplaintPage {
  import opened Wrappers
  import opened Text

  /** The colour of each channel the lookup names; the lookup is exact and case-sensitive. */
  const ChannelColors: map<string, string> := map[
    "Email" := "bg-emerald-600", "Whatsapp" := "bg-green-500",
    "Twitter" := "bg-blue-400", "Instagram" := "bg-pink-500"]

  const OtherChannelColor := "bg-gray-500"

  /** `getChannelColor(channel)`: the channel's colour, gray for any other channel. */
  function ChannelColor(channel: string): (c: string)
    ensures channel in ChannelColors ==> c == ChannelColors[channel]
    ensures channel !in ChannelColors ==> c == OtherChannelColor
    ensures c == OtherChannelColor <==> channel !in ChannelColors
  {
    if channel in ChannelColors then ChannelColors[channel] else OtherChannelColor
  }

  /** A case in the list, by its id and channel (its messages are not modelled). */
  datatype Case = Case(id: string, channel: string)

  const Cases: seq<Case> := [
    Case("CAS-001", "Email"), Case("CAS-002", "Whatsapp"), Case("CAS-003", "Twitter"),
    Case("CAS-004", "Instagram"), Case("CAS-005", "Twitter"), Case("CAS-006", "Twitter")]

  /** Every listed case comes through a known channel, so none shows the gray badge. */
  lemma ListedChannelsColored(i: nat)
    requires i < |Cases|
    ensures ChannelColor(Cases[i].channel) != OtherChannelColor
  {
  }

  /** The ids of the four tab buttons, in order. */
  const Tabs: seq<string> := ["cases", "open", "priority", "pending"]

  class ChatBox {
    var activeTab: string
    var message: string
    var selectedCase: Option<Case>

    constructor()
      ensures activeTab == "cases" && message == "" && selectedCase == None
    {
      activeTab := "cases";
      message := "";
      selectedCase := None;
    }

    /** Whether a listed case is highlighted: its id is the selected case's id. */
    predicate Highlighted(c: Case)
      reads this
    {
      selectedCase.Some? && selectedCase.value.id == c.id
    }

    /** A tab button's click handler: the tab with index `k` becomes active. */
    method ClickTab(k: nat)
      requires k < |Tabs|
      modifies this
      ensures activeTab == Tabs[k]
      ensures message == old(message) && selectedCase == old(selectedCase)
    {
      activeTab := Tabs[k];
    }

    /** A case row's click handler: exactly that case is selected, and highlighted. */
    method SelectCase(c: Case)
      modifies this
      ensures selectedCase == Some(c) && Highlighted(c)
      ensures activeTab == old(activeTab) && message == old(message)
    {
      selectedCase := Some(c);
    }

    /** The message input's change handler. */
    method EditMessage(text: string)
      modifies this
      ensures message == text
      ensures activeTab == old(activeTab) && selectedCase == old(selectedCase)
    {
      message := text;
    }

    /** `handleSendMessage`: clears the message exactly when it holds more than white space and
        a case is selected; otherwise nothing changes. */
    method HandleSendMessage() returns (sent: bool)
      modifies this
      ensures sent <==> !AllSpace(old(message)) && selectedCase.Some?
      ensures message == (if sent then "" else old(message))
      ensures activeTab == old(activeTab) && selectedCase == old(selectedCase)
    {
      TrimEmptyIff(message);
      sent := Trim(message) != "" && selectedCase.Some?;
      if sent {
        message := "";
      }
    }

    /** A key press in the message input: Enter sends, any other key does nothing. */
    method KeyPress(key: string) returns (sent: bool)
      modifies this
      ensures key != "Enter" ==> !sent && message == old(message)
      ensures key == "Enter" ==> (sent <==> !AllSpace(old(message)) && selectedCase.Some?)
      ensures message == (if sent then "" else old(message))
      ensures activeTab == old(activeTab) && selectedCase == old(selectedCase)
    {
      sent := false;
      if key == "Enter" {
        sent := HandleSendMessage();
      }
    }
  }
}
