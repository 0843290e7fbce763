/**
 * The two inline keyboards the bot draws: the main menu of social
 * categories and the per-category list of account links. A keyboard is
 * a grid of rows of buttons; a button either sends a callback payload
 * back to the bot or opens a URL.
 */
module Menus {
  import opened Registry

  datatype Button = Callback(text: string, data: string) | Url(text: string, url: string)

  type Keyboard = seq<seq<Button>>

  /** The payload of every "back to menu" button. */
  const BackData: string := "back_to_menu"

  /** The payload prefix of every category button. */
  const SocialPrefix: string := "social_"

  const BackLabel: string := "🔙 برگشت به منو"

  /** The button that leads back to the main menu. */
  const BackButton: Button := Callback(BackLabel, BackData)

  /** `build_main_menu`: three rows of two category buttons. */
  function MainMenu(): (kb: Keyboard)
    ensures |kb| == 3
    ensures forall r :: 0 <= r < |kb| ==> |kb[r]| == 2
  {
    [
      [Callback("📸 اینستاگرام", "social_instagram"), Callback("🎵 تیک‌تاک", "social_tiktok")],
      [Callback("💬 تلگرام", "social_telegram"), Callback("🎮 دیسکورد", "social_discord")],
      [Callback("📱 واتساپ", "social_whatsapp"), Callback("✉️ ایمیل", "social_email")]
    ]
  }

  /** Every main-menu button is a callback whose payload names a shipped category. */
  lemma MainMenuButtons(r: nat, c: nat)
    requires r < |MainMenu()| && c < |MainMenu()[r]|
    ensures MainMenu()[r][c].Callback?
    ensures MainMenu()[r][c].data == SocialPrefix + Categories[2 * r + c]
  {
  }

  /**
   * `build_links_keyboard`: one URL button per entry, in order, then
   * the back button on a row of its own.
   */
  function LinksKeyboard(items: seq<LinkEntry>): (kb: Keyboard)
    ensures |kb| == |items| + 1
    ensures forall i :: 0 <= i < |items| ==> kb[i] == [Url(items[i].name, items[i].url)]
    ensures kb[|items|] == [BackButton]
  {
    seq(|items|, i requires 0 <= i < |items| => [Url(items[i].name, items[i].url)]) + [[BackButton]]
  }

  /**
   * The account links a keyboard shows: the label and URL of every row
   * that is a single URL button, in order.
   */
  function LinksShown(kb: Keyboard): seq<LinkEntry>
    decreases |kb|
  {
    if kb == [] then []
    else
      var row := kb[0];
      var here := if |row| == 1 && row[0].Url? then [LinkEntry(row[0].text, row[0].url)] else [];
      here + LinksShown(kb[1..])
  }

  /** The links keyboard shows exactly the entries it was built from, in order. */
  lemma {:induction false} LinksKeyboardShowsItems(items: seq<LinkEntry>)
    ensures LinksShown(LinksKeyboard(items)) == items
    decreases |items|
  {
    var kb := LinksKeyboard(items);
    if items == [] {
      assert kb[1..] == [];
    } else {
      assert kb[1..] == LinksKeyboard(items[1..]);
      LinksKeyboardShowsItems(items[1..]);
      assert items == [items[0]] + items[1..];
    }
  }

  /** The only callback button on a links keyboard is the back button. */
  lemma LinksKeyboardCallbacks(items: seq<LinkEntry>, r: nat, c: nat)
    requires r < |LinksKeyboard(items)| && c < |LinksKeyboard(items)[r]|
    requires LinksKeyboard(items)[r][c].Callback?
    ensures r == |items| && LinksKeyboard(items)[r][c] == BackButton
  {
  }
}
