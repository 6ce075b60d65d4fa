/**
 * The dashboard page: the assistant chat's send pipeline, the display
 * preferences kept in local storage, the view switch and the helpers the
 * page renders with.
 */
module DashboardPage {
  import opened Wrappers
  import opened Text
  import opened Chat
  import opened Storage
  import SignupRules

  const ThemeColorKey: string := "themeColor"
  const FontSizeKey: string := "fontSize"

  const DefaultThemeColor: string := "#3b82f6"
  const DefaultFontSize: string := "medium"

  /** The two display settings. */
  datatype Preferences = Preferences(themeColor: string, fontSize: string)

  /** What the page reads from the store when it mounts. */
  function LoadPreferences(items: map<string, string>): (p: Preferences)
    ensures (ThemeColorKey !in items || items[ThemeColorKey] == "") ==> p.themeColor == DefaultThemeColor
    ensures (FontSizeKey !in items || items[FontSizeKey] == "") ==> p.fontSize == DefaultFontSize
    ensures ThemeColorKey in items && items[ThemeColorKey] != "" ==> p.themeColor == items[ThemeColorKey]
    ensures FontSizeKey in items && items[FontSizeKey] != "" ==> p.fontSize == items[FontSizeKey]
    ensures p.themeColor != "" && p.fontSize != ""
  {
    Preferences(OrElse(Lookup(items, ThemeColorKey), DefaultThemeColor),
                OrElse(Lookup(items, FontSizeKey), DefaultFontSize))
  }

  /** What the two persisting effects leave in the store: both keys written, every other key kept. */
  function PersistPreferences(items: map<string, string>, p: Preferences): (r: map<string, string>)
    ensures r.Keys == items.Keys + {ThemeColorKey, FontSizeKey}
    ensures r[ThemeColorKey] == p.themeColor && r[FontSizeKey] == p.fontSize
    ensures forall k :: k in items && k != ThemeColorKey && k != FontSizeKey ==> r[k] == items[k]
  {
    items[ThemeColorKey := p.themeColor][FontSizeKey := p.fontSize]
  }

  /** Persisted preferences come back unchanged on the next load. */
  lemma PersistThenLoad(items: map<string, string>, p: Preferences)
    requires p.themeColor != "" && p.fontSize != ""
    ensures LoadPreferences(PersistPreferences(items, p)) == p
  {
  }

  /** Choosing a colour and reloading gives that colour back and leaves the font size as it was. */
  lemma ReloadAfterThemeColor(items: map<string, string>, color: string)
    requires color != ""
    ensures LoadPreferences(items[ThemeColorKey := color]) == LoadPreferences(items).(themeColor := color)
  {
  }

  /** Choosing a font size and reloading gives that size back and leaves the colour as it was. */
  lemma ReloadAfterFontSize(items: map<string, string>, size: string)
    requires size != ""
    ensures LoadPreferences(items[FontSizeKey := size]) == LoadPreferences(items).(fontSize := size)
  {
  }

  /** `getFontSizeClass()`: the Tailwind class for the chosen font size. */
  function FontSizeClass(fontSize: string): (cls: string)
    ensures cls == "text-sm" || cls == "text-base" || cls == "text-lg"
    ensures cls == "text-sm" <==> fontSize == "small"
    ensures cls == "text-lg" <==> fontSize == "large"
  {
    if fontSize == "small" then "text-sm"
    else if fontSize == "large" then "text-lg"
    else "text-base"
  }

  /** `s.split(".")[0]`: the text before the first dot, or all of `s` when it has none. */
  function FirstSegment(s: string): (seg: string)
    ensures |seg| <= |s| && seg == s[..|seg|]
    ensures forall i :: 0 <= i < |seg| ==> seg[i] != '.'
    ensures |seg| < |s| ==> s[|seg|] == '.'
  {
    if s == [] || s[0] == '.' then [] else [s[0]] + FirstSegment(s[1..])
  }

  /** The error JavaScript raises when `toUpperCase` is called on `undefined`. */
  datatype JsError = TypeError

  /**
   * `getInitials(name)`, which is `name?.split(".")[0][0].toUpperCase() || "U"`.
   * An absent name gives "U". A name whose first segment is empty (the empty
   * name, or one that starts with a dot) throws, because indexing the empty
   * segment yields `undefined`. Otherwise the result is the upper-cased first
   * character; that one-character string is never falsy, so the `"U"` fallback
   * does not apply to it.
   */
  function Initials(name: Option<string>): (r: Result<string, JsError>)
    ensures name.None? ==> r == Ok("U")
    ensures name.Some? && (name.value == [] || name.value[0] == '.') ==> r == Err(TypeError)
    ensures name.Some? && name.value != [] && name.value[0] != '.' ==> r == Ok([ToUpper(name.value[0])])
  {
    match name
    case None => Ok("U")
    case Some(n) =>
      var segment := FirstSegment(n);
      if segment == [] then Err(TypeError) else Ok([ToUpper(segment[0])])
  }

  /**
   * The evidently intended initials, `name?.split(".")[0]?.[0]?.toUpperCase() || "U"`:
   * always one character, falling back to "U" where the code as written throws.
   */
  function InitialsOrDefault(name: Option<string>): (r: string)
    ensures |r| == 1
    ensures Initials(name).Ok? ==> r == Initials(name).value
    ensures Initials(name).Err? ==> r == "U"
  {
    match name
    case None => "U"
    case Some(n) =>
      var segment := FirstSegment(n);
      if segment == [] then "U" else [ToUpper(segment[0])]
  }

  /**
   * Sign-up accepts a username with an empty part before the dot, such as
   * ".ab", and the dashboard's initials for that name throw.
   */
  lemma InitialsThrowOnAcceptedUsername()
    ensures SignupRules.IsUsername(".ab")
    ensures Initials(Some(".ab")) == Err(TypeError)
    ensures InitialsOrDefault(Some(".ab")) == "U"
  {
    assert ".ab"[..0] == [] && ".ab"[1..] == "ab";
  }

  /** `activeView`: "ai" or "conversations". */
  datatype View = Assistant | Conversations

  /** A fetched peer conversation; the page only reads it. */
  datatype Conversation = Conversation(id: string, counterpart: string, messages: seq<Message>, lastMessage: Message)

  class Dashboard {
    var messages: seq<Message>
    var conversations: seq<Conversation>
    var input: string
    var isSending: bool
    var activeView: View
    var selectedConversation: Option<Conversation>
    var themeColor: string
    var fontSize: string
    const storage: LocalStorage

    /** Every `saveMessage` request issued so far. */
    ghost var saves: seq<SaveRequest>
    /** The prompt of every `ask` request issued so far. */
    ghost var asks: seq<string>
    /** While a send is in flight: the messages it started from and the user message it appended. */
    ghost var settled: seq<Message>
    ghost var pending: Message

    /** While a send is in flight, the list is what it started from, then the user message, then the placeholder as the tail. */
    ghost predicate Valid()
      reads this
    {
      isSending ==> pending.sender == User && messages == settled + [pending, Placeholder]
    }

    /**
     * The mounted page after the profile, history and conversation loads:
     * preferences are read from the store (with their defaults) and written
     * back by the persisting effects.
     */
    constructor Mount(storage: LocalStorage, history: seq<Message>, conversations: seq<Conversation>)
      modifies storage
      ensures Valid() && this.storage == storage
      ensures messages == history && this.conversations == conversations
      ensures input == "" && !isSending && activeView == Assistant && selectedConversation == None
      ensures Preferences(themeColor, fontSize) == LoadPreferences(old(storage.items))
      ensures storage.items == PersistPreferences(old(storage.items), Preferences(themeColor, fontSize))
      ensures saves == [] && asks == []
    {
      this.storage := storage;
      messages := history;
      this.conversations := conversations;
      input := "";
      isSending := false;
      activeView := Assistant;
      selectedConversation := None;
      themeColor := DefaultThemeColor;
      fontSize := DefaultFontSize;
      saves := [];
      asks := [];
      settled := [];
      pending := Placeholder;
      new;
      var savedThemeColor := storage.GetItem(ThemeColorKey);
      var savedFontSize := storage.GetItem(FontSizeKey);
      themeColor := OrElse(savedThemeColor, DefaultThemeColor);
      fontSize := OrElse(savedFontSize, DefaultFontSize);
      storage.SetItem(ThemeColorKey, themeColor);
      storage.SetItem(FontSizeKey, fontSize);
    }

    /** Typing in the message box. */
    method EditInput(value: string)
      modifies this`input
      ensures input == value
    {
      input := value;
    }

    /** Picking an emoji appends it to the message box. */
    method AddEmoji(emoji: string)
      modifies this`input
      ensures input == old(input) + emoji
    {
      input := input + emoji;
    }

    /**
     * The synchronous part of `handleSendMessage`: blank input is ignored;
     * otherwise the user message (the untrimmed input) and the placeholder are
     * appended, the input is cleared, the page enters the sending state, and
     * one save and one ask carrying exactly that text are issued.
     */
    method BeginSend(now: Time) returns (started: bool)
      requires Valid() && !isSending
      modifies this
      ensures Valid()
      ensures started <==> !Blank(old(input))
      ensures !started ==> messages == old(messages) && input == old(input) && !isSending
                           && saves == old(saves) && asks == old(asks)
      ensures started ==> messages == old(messages) + [Message(User, old(input), Some(now)), Placeholder]
                          && input == "" && isSending
                          && saves == old(saves) + [SaveRequest(User, old(input))]
                          && asks == old(asks) + [old(input)]
      ensures conversations == old(conversations) && activeView == old(activeView)
      ensures selectedConversation == old(selectedConversation)
      ensures themeColor == old(themeColor) && fontSize == old(fontSize)
    {
      var blank := Blank(input);
      if blank {
        started := false;
        return;
      }
      started := true;
      var userMessage := Message(User, input, Some(now));
      settled, pending := messages, userMessage;
      messages := messages + [userMessage];
      saves := saves + [SaveRequest(User, input)];
      input := "";
      isSending := true;
      messages := messages + [Placeholder];
      asks := asks + [userMessage.text];
    }

    /**
     * The part of `handleSendMessage` after the `ask` request settles: only the
     * placeholder tail is replaced, by the answer or by the apology; only an
     * answer is saved; the sending state ends either way.
     */
    method ResolveSend(outcome: AskOutcome, now: Time)
      requires Valid() && isSending
      modifies this
      ensures Valid() && !isSending
      ensures messages == ReplaceTail(old(messages), Resolution(outcome, now))
      ensures messages == old(settled) + [old(pending), Resolution(outcome, now)]
      ensures outcome.Answer? ==> saves == old(saves) + [SaveRequest(Bot, outcome.answer)]
      ensures outcome.Thrown? ==> saves == old(saves)
      ensures asks == old(asks) && input == old(input)
      ensures conversations == old(conversations) && activeView == old(activeView)
      ensures selectedConversation == old(selectedConversation)
      ensures themeColor == old(themeColor) && fontSize == old(fontSize)
    {
      ExchangeAppendsTwo(settled, pending, outcome, now);
      messages := ReplaceTail(messages, Resolution(outcome, now));
      if outcome.Answer? {
        saves := saves + [SaveRequest(Bot, outcome.answer)];
      }
      isSending := false;
    }

    /** Clicking a sidebar entry; the chat, the input and the conversation list are kept. */
    method SetActiveView(view: View)
      requires Valid()
      modifies this`activeView
      ensures Valid() && activeView == view
      ensures messages == old(messages) && input == old(input) && isSending == old(isSending)
      ensures conversations == old(conversations) && selectedConversation == old(selectedConversation)
    {
      activeView := view;
    }

    /** Clicking an entry of the conversation list, shown only in the conversations view; nothing else changes. */
    method SelectConversation(conversation: Conversation)
      requires Valid() && activeView == Conversations && conversation in conversations
      modifies this`selectedConversation
      ensures Valid() && selectedConversation == Some(conversation)
      ensures messages == old(messages) && input == old(input) && isSending == old(isSending)
      ensures conversations == old(conversations) && activeView == old(activeView)
    {
      selectedConversation := Some(conversation);
    }

    /** Choosing a theme colour; its effect writes only the `themeColor` key. */
    method SetThemeColor(color: string)
      requires Valid()
      modifies this`themeColor, storage
      ensures Valid() && themeColor == color
      ensures storage.items == old(storage.items)[ThemeColorKey := color]
    {
      themeColor := color;
      storage.SetItem(ThemeColorKey, color);
    }

    /** Choosing a font size; its effect writes only the `fontSize` key. */
    method SetFontSize(size: string)
      requires Valid()
      modifies this`fontSize, storage
      ensures Valid() && fontSize == size
      ensures storage.items == old(storage.items)[FontSizeKey := size]
    {
      fontSize := size;
      storage.SetItem(FontSizeKey, size);
    }

    /** `handleLogout`: the token is removed and the landing page is the next location. */
    method Logout() returns (next: string)
      modifies storage
      ensures storage.items == old(storage.items) - {TokenKey}
      ensures next == "/"
    {
      storage.RemoveItem(TokenKey);
      next := "/";
    }
  }
}
