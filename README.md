# Kaydarap bot: link registry, menus and callback router

A Dafny model of the logic in `main.py` of the Kaydarap Telegram bot.
The bot shows a main menu of six social networks as inline buttons.
Pressing one edits the message into that network's account links, with
a button back to the menu. The model has four parts:

- the link registry that `load_config` returns, a constant map from
  category key to an ordered list of `LinkEntry(name, url)`
  (`registry.dfy`);
- the two keyboards, `build_main_menu` and `build_links_keyboard`, as
  grids `seq<seq<Button>>` of `Callback(text, data)` and `Url(text, url)`
  buttons (`menus.dfy`);
- the payload routing of `callback_handler` as a pure function
  `Route(payload): Outcome`, where an outcome is `MainMenuView`,
  `Links(title, keyboard)`, `NotRegistered(keyboard)` or `NoEdit`
  (`router.dfy`);
- the reply of `start` and the message text each outcome edits in,
  also in `router.dfy`.

The key of a category payload is taken in the source by Python's
`payload.split("social_")[1]`. `pystr.dfy` models that call exactly:
`split` with a separator cuts at the first occurrence, left to right,
then splits the rest. Its inverse `join` is proved to give the input
back. `SocialKey` is proved to be the text after the leading `social_`
up to the next `social_`, or to the end when there is none. So
`"social_"` alone gives the empty key, and `"social_instagramsocial_tiktok"`
gives `"instagram"`.

The main cross-component result is `Router.MainMenuRoutesToLinks`. Every
main-menu button carries `social_` plus a category that is registered
with a non-empty list and has an entry in the title map. Pressing it
therefore shows that category's links under its mapped title. The
capitalised-key fallback title is never reached from the menu; more
generally, `Router.Title` proves every registered category has a mapped
title, so the fallback is never shown for any payload.
`Router.DrawnButtonsAreLive` extends this to every callback button on
every keyboard the bot draws: pressing one shows the main menu or a
links view.

The `load_config` function takes no arguments and returns a literal, so
it gives the same registry on every call. The Dafny function
`Registry.LoadConfig` has that property by construction.

## Model

| member | source | states |
|---|---|---|
| PyStr.StartsWith | main.py:106 | `startswith` holds exactly when the prefix is no longer than the string and agrees with it character by character |
| PyStr.FindFrom | main.py:107 | the first index at or after `i` where the separator occurs, or none when it occurs nowhere from `i` on |
| PyStr.Split | main.py:107 | `str.split(sep)` yields at least one piece and no piece contains the separator |
| PyStr.JoinSplit | main.py:107 | joining the pieces of a split with the separator gives back the original string |
| PyStr.SplitHead | main.py:107 | the first piece is a prefix free of the separator, and is either the whole string or followed by the separator |
| PyStr.SplitLeadingSep | main.py:106-107 | a string that starts with the separator splits into `""` followed by the split of the rest |
| PyStr.Capitalize | main.py:121 | `capitalize` keeps the length and every letter up to case, leaves the first letter not lower-case and the rest not upper-case (ASCII) |
| Registry.LoadConfig | main.py:26-50 | the configuration always has the `"socials"` section |
| Registry.Socials | main.py:109 | definition: `cfg.get("socials", {})`, the socials section or the empty map; its shipped contents are stated by `ShippedRegistryShape` |
| Registry.Lookup | main.py:110 | definition: `socials.get(key)`, the stored list or `None`; what it yields for the shipped registry is stated by `RegisteredIffShipped` |
| Registry.Registered | main.py:112 | definition: the truthiness of `items`, present and non-empty; characterised by `RegisteredIffShipped` |
| Registry.ShippedRegistryShape | main.py:28-49 | the registry holds exactly the six categories, each with exactly one account |
| Registry.RegisteredIffShipped | main.py:110-112 | a key passes the `if items:` test exactly when it is one of the six shipped categories |
| Menus.MainMenu | main.py:57-72 | the main menu has three rows of two buttons |
| Menus.MainMenuButtons | main.py:58-71 | every main-menu button is a callback whose data is `"social_"` plus the matching category, in registry order |
| Menus.LinksKeyboard | main.py:75-78 | the links keyboard has one more row than entries; row i is a single URL button with entry i's name and URL; the last row is the back button with data `"back_to_menu"` |
| Menus.LinksKeyboardShowsItems | main.py:75-78 | reading the URL buttons back off a links keyboard gives exactly the entries it was built from, in order |
| Menus.LinksKeyboardCallbacks | main.py:76-77 | the only callback button on a links keyboard is the back button in the last row |
| Router.Title | main.py:113-121 | every registered category is in the title map and gets its mapped title, so the capitalised fallback is never shown for a registered key |
| Router.LinksHeading | main.py:123 | definition: the links-view heading; its injectivity is stated by `LinksHeadingInjective` |
| Router.LinksHeadingInjective | main.py:123 | the links-view heading `f"📱 اکانت‌های {title}:"` determines its title: distinct titles give distinct headings |
| Router.SocialKey | main.py:106-107 | `split("social_")[1]` is a prefix of the text after `social_`, holds no `social_`, and reaches the end or the next `social_` |
| Router.SocialKeyOfRest | main.py:107 | the key of `"social_" + rest` is the first piece of splitting `rest` |
| Router.SocialKeyOfPlain | main.py:107 | a key without `_` that ends the payload is read back whole |
| Router.SocialKeyBeforeSecondPrefix | main.py:107 | a key without `_` is read back whole when a second `social_` follows it, whatever comes after |
| Router.Route | main.py:99-130 | the outcome is the main menu exactly for `"back_to_menu"`, and no edit exactly for payloads that are neither that nor prefixed by `"social_"` |
| Router.RouteCategory | main.py:106-130 | a `social_` payload gives the links view of exactly the registered list, titled by `Title`, when its key maps to a non-empty list, and the not-registered view with the main menu otherwise |
| Router.Edit | main.py:99-130 | an outcome edits the message exactly when it is not `NoEdit` |
| Router.StartReply | main.py:85-91 | `start` replies with the same keyboard that `back_to_menu` edits in, and its text is the greeting followed by that same prompt |
| Router.MainMenuRoutesToLinks | main.py:57-72 | every main-menu button routes to the links view of a registered, non-empty, title-mapped category, so the capitalised fallback is unreachable from the menu |
| Router.DrawnButtonsAreLive | main.py:99-130 | every callback button on any keyboard an edit shows routes to the main menu or to a links view |
| Router.RouteBarePrefix | main.py:106-112 | `"social_"` alone has the empty key and gives the not-registered view |
| Router.SecondPrefixCutsKey | main.py:107 | the key of `"social_instagramsocial_tiktok"` is `"instagram"` |
| Router.RouteSecondPrefixCutsKey | main.py:106-125 | that payload shows the Instagram links |
| Router.DoubledPrefixKey | main.py:107 | the key of `"social_social_instagram"` is the empty string |
| Router.RouteDoubledPrefix | main.py:106-112 | that payload gives the not-registered view |
| Router.RouteKeyIsCaseSensitive | main.py:110-112 | `"social_Instagram"` is not registered |
| Router.RouteIgnoresOtherPayloads | main.py:99-106 | every payload that is neither `"back_to_menu"` nor prefixed by `"social_"` makes no edit |
| Router.InstagramKey | main.py:107 | the key of `"social_instagram"` is `"instagram"` |
| Router.InstagramKeyboard | main.py:75-78 | the Instagram links keyboard is the configured account's URL button, then the back button |
| Router.InstagramView | main.py:30-32 | the Instagram button shows one URL button with the configured name and URL, then the back button |

## Left out

- Telegram SDK objects and calls (`InlineKeyboardMarkup`, `InlineKeyboardButton`, `query.answer`, `edit_message_text`, `reply_text`, `ApplicationBuilder`, `run_polling`): foreign library and network calls. Keyboards are plain grids; edits and replies are returned as `Message` values.
- `query.answer()` (main.py:96): the acknowledgement is sent for every payload before the case split; as an SDK call it is not modelled.
- `async`/`await` and handler registration in `main` (main.py:137-147): event-loop plumbing.
- The `BOT_TOKEN` environment variable and the startup `RuntimeError` (main.py:16, 138-139), logging and `print`: process I/O.
- `CONFIG_FILE` and the `json` import (main.py:2, 17): unused, no file is read.
- The callback payload is modelled as a string; the case where the platform delivers no payload at all is not modelled.
- PyStr.Capitalize: models only ASCII case mapping, not Python's full Unicode title-casing of the first character and lower-casing of the rest. It is unreachable from the shipped menu.
- Per-user state: `main.py` keeps none; it registers only `start` and the callback handler (main.py:143-144), so there is no state to model.
