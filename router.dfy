/**
 * The callback router: what `callback_handler` does with the payload of
 * a pressed inline button, and the reply `start` sends. Each handler's
 * calls into the chat platform are returned as values: `Route` says
 * which view the payload selects and `Edit` gives the text and keyboard
 * the message is edited to, or `None` when the message is left alone.
 */
module Router {
  import opened Wrappers
  import opened PyStr
  import opened Registry
  import opened Menus

  /** The view a button press selects. */
  datatype Outcome =
    | MainMenuView
    | Links(title: string, keyboard: Keyboard)
    | NotRegistered(keyboard: Keyboard)
    | NoEdit

  /** The text and keyboard of a message sent or edited. */
  datatype Message = Message(text: string, keyboard: Keyboard)

  const MenuPrompt: string := "یکی از شبکه‌های اجتماعی زیر رو انتخاب کن 👇"

  const NotRegisteredText: string := "برای این شبکه هنوز اکانتی ثبت نشده."

  const Greeting: string := "سلام 👋\nبه ربات Kaydarap خوش اومدی!\n"

  /** The display title of each shipped category. */
  const TitleMap: map<string, string> := map[
    "instagram" := "اینستاگرام",
    "tiktok" := "تیک‌تاک",
    "telegram" := "تلگرام",
    "discord" := "دیسکورد",
    "whatsapp" := "واتساپ",
    "email" := "ایمیل"
  ]

  /**
   * Python `title_map.get(key, key.capitalize())`. Every registered
   * category has a mapped title, so the capitalised fallback is never
   * shown for a key that reaches the links view.
   */
  function Title(key: string): (t: string)
    ensures key in Socials(LoadConfig()) ==> key in TitleMap && t == TitleMap[key]
  {
    if key in TitleMap then TitleMap[key] else Capitalize(key)
  }

  /** The heading of a links view, `f"📱 اکانت‌های {title}:"`. */
  function LinksHeading(title: string): string {
    "📱 اکانت‌های " + title + ":"
  }

  /**
   * Python `payload.split("social_")[1]` for a payload that starts with
   * "social_": the text after the prefix up to the next "social_", or
   * up to the end when there is none.
   */
  function SocialKey(payload: string): (k: string)
    requires StartsWith(payload, SocialPrefix)
    ensures var rest := payload[|SocialPrefix|..];
      StartsWith(rest, k) && Free(k, SocialPrefix) &&
      (k == rest || StartsWith(rest, k + SocialPrefix))
  {
    SplitLeadingSep(payload, SocialPrefix);
    SplitHead(payload[|SocialPrefix|..], SocialPrefix);
    Split(payload, SocialPrefix)[1]
  }

  /** Distinct titles give distinct links-view headings. */
  lemma LinksHeadingInjective(a: string, b: string)
    requires LinksHeading(a) == LinksHeading(b)
    ensures a == b
  {
    var h := LinksHeading(a);
    var n := |LinksHeading("")| - 1;
    assert |a| == |b|;
    forall i | 0 <= i < |a| ensures a[i] == b[i] {
      assert h[n + i] == a[i];
      assert LinksHeading(b)[n + i] == b[i];
    }
  }

  /** The payload routing of `callback_handler`. */
  function Route(payload: string): (o: Outcome)
    ensures o == MainMenuView <==> payload == BackData
    ensures o == NoEdit <==> payload != BackData && !StartsWith(payload, SocialPrefix)
  {
    if payload == BackData then MainMenuView
    else if StartsWith(payload, SocialPrefix) then
      var key := SocialKey(payload);
      var items := Lookup(Socials(LoadConfig()), key);
      if Registered(items) then Links(Title(key), LinksKeyboard(items.value))
      else NotRegistered(MainMenu())
    else NoEdit
  }

  /** The `edit_message_text` call each outcome makes, if any. */
  function Edit(o: Outcome): (m: Option<Message>)
    ensures m.None? <==> o == NoEdit
  {
    match o
    case MainMenuView => Some(Message(MenuPrompt, MainMenu()))
    case Links(title, kb) => Some(Message(LinksHeading(title), kb))
    case NotRegistered(kb) => Some(Message(NotRegisteredText, kb))
    case NoEdit => None
  }

  /** `start`: the greeting followed by the menu prompt, with the main menu. */
  function StartReply(): (m: Message)
    ensures Edit(Route(BackData)).Some?
    ensures m.keyboard == Edit(Route(BackData)).value.keyboard
    ensures m.text == Greeting + Edit(Route(BackData)).value.text
  {
    Message(Greeting + MenuPrompt, MainMenu())
  }

  /**
   * A category payload (one starting with "social_") routes on its key:
   * a registered key with a non-empty list gives the links view built
   * from exactly that list, titled from the title map or by the
   * capitalised key; any other key gives the "not registered" view with
   * the main menu.
   */
  lemma RouteCategory(payload: string)
    requires StartsWith(payload, SocialPrefix)
    ensures var key := SocialKey(payload);
      var socials := Socials(LoadConfig());
      (key in socials && |socials[key]| > 0 ==>
        Route(payload) == Links(Title(key), LinksKeyboard(socials[key]))) &&
      (!(key in socials && |socials[key]| > 0) ==> Route(payload) == NotRegistered(MainMenu()))
  {
    assert payload != BackData by {
      assert payload[0] == 's' && BackData[0] == 'b';
    }
  }

  /** Python's `split` reads the key from what follows the leading "social_". */
  lemma SocialKeyOfRest(rest: string)
    ensures StartsWith(SocialPrefix + rest, SocialPrefix)
    ensures SocialKey(SocialPrefix + rest) == Split(rest, SocialPrefix)[0]
  {
    var payload := SocialPrefix + rest;
    assert payload[..|SocialPrefix|] == SocialPrefix;
    SplitLeadingSep(payload, SocialPrefix);
    assert payload[|SocialPrefix|..] == rest;
  }

  /** An occurrence of "social_" ends in its only '_'. */
  lemma OccurrenceHasUnderscore(s: string, j: nat)
    requires OccursAt(s, SocialPrefix, j)
    ensures j + |SocialPrefix| - 1 < |s| && s[j + |SocialPrefix| - 1] == '_'
    ensures forall d :: 0 <= d < |SocialPrefix| - 1 ==> s[j + d] == SocialPrefix[d] && SocialPrefix[d] != '_'
  {
    assert s[j..j + |SocialPrefix|] == SocialPrefix;
    forall d | 0 <= d < |SocialPrefix| ensures s[j + d] == SocialPrefix[d] {
      assert s[j..j + |SocialPrefix|][d] == s[j + d];
    }
  }

  /** A string with no '_' holds no "social_". */
  lemma FreeWithoutUnderscore(k: string)
    requires '_' !in k
    ensures Free(k, SocialPrefix)
  {
    forall j: nat | j <= |k| ensures !OccursAt(k, SocialPrefix, j) {
      if OccursAt(k, SocialPrefix, j) {
        OccurrenceHasUnderscore(k, j);
        assert false;
      }
    }
  }

  /** After a run with no '_', the first "social_" is the one that follows it. */
  lemma FirstSocialPrefixAfter(k: string, t: string)
    requires '_' !in k
    ensures Find(k + SocialPrefix + t, SocialPrefix) == Some(|k|)
  {
    var u := k + SocialPrefix + t;
    assert OccursAt(u, SocialPrefix, |k|) by {
      assert u[|k|..|k| + |SocialPrefix|] == SocialPrefix;
    }
    forall j: nat | j < |k| ensures !OccursAt(u, SocialPrefix, j) {
      if OccursAt(u, SocialPrefix, j) {
        OccurrenceHasUnderscore(u, j);
        assert false;
      }
    }
    FindIs(u, SocialPrefix, |k|);
  }

  /** A key holding no '_' that ends the payload is read back whole. */
  lemma SocialKeyOfPlain(k: string)
    requires '_' !in k
    ensures SocialKey(SocialPrefix + k) == k
  {
    FreeWithoutUnderscore(k);
    SocialKeyOfRest(k);
  }

  /** A key holding no '_' is read back whole, whatever follows the next "social_". */
  lemma SocialKeyBeforeSecondPrefix(k: string, t: string)
    requires '_' !in k
    ensures SocialKey(SocialPrefix + k + SocialPrefix + t) == k
  {
    var u := k + SocialPrefix + t;
    FirstSocialPrefixAfter(k, t);
    assert Split(u, SocialPrefix)[0] == u[..|k|] == k;
    SocialKeyOfRest(u);
    assert SocialPrefix + k + SocialPrefix + t == SocialPrefix + u;
  }

  /**
   * Every main-menu button routes to the links view of a category that
   * is registered with a non-empty list and has a mapped title, so the
   * capitalised-key title is never shown from the menu.
   */
  lemma MainMenuRoutesToLinks(r: nat, c: nat)
    requires r < |MainMenu()| && c < |MainMenu()[r]|
    ensures var b := MainMenu()[r][c];
      b.Callback? && StartsWith(b.data, SocialPrefix) &&
      var key := b.data[|SocialPrefix|..];
      var socials := Socials(LoadConfig());
      key in socials && |socials[key]| > 0 && key in TitleMap &&
      Route(b.data) == Links(TitleMap[key], LinksKeyboard(socials[key]))
  {
    MainMenuButtons(r, c);
    var key := Categories[2 * r + c];
    var data := MainMenu()[r][c].data;
    assert data[..|SocialPrefix|] == SocialPrefix && data[|SocialPrefix|..] == key;
    assert '_' !in key;
    SocialKeyOfPlain(key);
    assert data == SocialPrefix + key;
    RegisteredIffShipped(key);
    RouteCategory(data);
  }

  /**
   * Every callback button on every keyboard the bot draws leads
   * somewhere: pressing it shows the main menu or a links view, never
   * the "not registered" text and never nothing.
   */
  lemma DrawnButtonsAreLive(payload: string, r: nat, c: nat)
    requires Edit(Route(payload)).Some?
    requires var kb := Edit(Route(payload)).value.keyboard;
      r < |kb| && c < |kb[r]| && kb[r][c].Callback?
    ensures var o := Route(Edit(Route(payload)).value.keyboard[r][c].data);
      o == MainMenuView || o.Links?
  {
    var o := Route(payload);
    if o.Links? {
      RouteCategory(payload);
      var key := SocialKey(payload);
      LinksKeyboardCallbacks(Socials(LoadConfig())[key], r, c);
    } else {
      MainMenuRoutesToLinks(r, c);
    }
  }

  /** "social_" alone has the empty key, which is not registered. */
  lemma RouteBarePrefix()
    ensures SocialKey("social_") == ""
    ensures Route("social_") == NotRegistered(MainMenu())
  {
    SocialKeyOfPlain("");
    assert "social_" == SocialPrefix + "";
    RouteCategory("social_");
  }

  /** A second "social_" cuts the key short: only what lies before it counts. */
  lemma SecondPrefixCutsKey()
    ensures SocialKey("social_instagramsocial_tiktok") == "instagram"
  {
    SocialKeyBeforeSecondPrefix("instagram", "tiktok");
    assert SocialPrefix + "instagram" == "social_instagram";
    assert "social_instagram" + SocialPrefix == "social_instagramsocial_";
    assert "social_instagramsocial_" + "tiktok" == "social_instagramsocial_tiktok";
  }

  /** So that payload shows the Instagram links, not the TikTok ones. */
  lemma RouteSecondPrefixCutsKey()
    ensures Route("social_instagramsocial_tiktok")
         == Links(TitleMap["instagram"], LinksKeyboard(Socials(LoadConfig())["instagram"]))
  {
    var payload := "social_instagramsocial_tiktok";
    SecondPrefixCutsKey();
    var key := SocialKey(payload);
    RegisteredIffShipped(key);
    var socials := Socials(LoadConfig());
    assert key in socials && |socials[key]| > 0;
    RouteCategory(payload);
  }

  /** A doubled prefix has the empty key, not the category after it. */
  lemma DoubledPrefixKey()
    ensures SocialKey("social_social_instagram") == ""
  {
    SocialKeyBeforeSecondPrefix("", "instagram");
    assert SocialPrefix + "" == "social_";
    assert "social_" + SocialPrefix == "social_social_";
    assert "social_social_" + "instagram" == "social_social_instagram";
  }

  /** So that payload shows the not-registered view. */
  lemma RouteDoubledPrefix()
    ensures Route("social_social_instagram") == NotRegistered(MainMenu())
  {
    DoubledPrefixKey();
    RegisteredIffShipped("");
    RouteCategory("social_social_instagram");
  }

  /** Keys are matched exactly, case included. */
  lemma RouteKeyIsCaseSensitive()
    ensures Route("social_Instagram") == NotRegistered(MainMenu())
  {
    SocialKeyOfPlain("Instagram");
    assert "social_Instagram" == SocialPrefix + "Instagram";
    RouteCategory("social_Instagram");
    RegisteredIffShipped("Instagram");
  }

  /** A payload that is neither "back_to_menu" nor prefixed by "social_" edits nothing. */
  lemma RouteIgnoresOtherPayloads(payload: string)
    requires payload != BackData && !StartsWith(payload, SocialPrefix)
    ensures Edit(Route(payload)) == None
  {
  }

  /** The Instagram button's payload carries the key "instagram". */
  lemma InstagramKey()
    ensures SocialKey("social_instagram") == "instagram"
  {
    SocialKeyOfPlain("instagram");
    assert "social_instagram" == SocialPrefix + "instagram";
  }

  /** The Instagram links keyboard: the configured account, then the back button. */
  lemma InstagramKeyboard()
    ensures LinksKeyboard(Socials(LoadConfig())["instagram"]) == [
      [Url("Instagram @Kaydarap", "https://instagram.com/Kaydarap")],
      [BackButton]
    ]
  {
    var items := Socials(LoadConfig())["instagram"];
    assert items == [LinkEntry("Instagram @Kaydarap", "https://instagram.com/Kaydarap")];
    var kb := LinksKeyboard(items);
    assert |kb| == 2 && kb[0] == [Url(items[0].name, items[0].url)] && kb[1] == [BackButton];
  }

  /**
   * Pressing the Instagram button shows one URL button with the
   * configured account and URL, then the back button.
   */
  lemma InstagramView()
    ensures Route("social_instagram") == Links("اینستاگرام", [
      [Url("Instagram @Kaydarap", "https://instagram.com/Kaydarap")],
      [BackButton]
    ])
  {
    var payload := "social_instagram";
    InstagramKey();
    var key := SocialKey(payload);
    RegisteredIffShipped(key);
    var socials := Socials(LoadConfig());
    assert key in socials && |socials[key]| > 0;
    RouteCategory(payload);
    InstagramKeyboard();
  }
}
