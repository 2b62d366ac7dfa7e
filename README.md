# Menu navigation of the web-development lessons bot

A Dafny model of the navigation logic in `bot.py`, a Telegram bot. The bot shows a
root menu with one button per topic ("field"). A topic button opens that topic's
lesson list. A lesson button shows the lesson text. A "back" button (`رجوع`, callback
key `back_to_main`) returns to the root menu. Every button press is acknowledged.
Then the message it came from is edited in place, or it is left alone.

Modules:

- `Catalog` (catalog.dfy): the `fields` dictionary as an ordered sequence of topics,
  each holding an ordered sequence of lessons. It also holds the dictionary lookups
  the bot performs, as "first match" functions with their characterising contracts,
  and the catalog the bot ships with (`SourceFields`). `WellFormed` states what a
  Python dictionary guarantees: keys are unique at each level.
- `Menus` (menus.dfy): buttons, keyboards, `main_menu` (`MainMenu`) and
  `lessons_menu` (`LessonsMenu`). `fields[k]` raising `KeyError` becomes a `KeyError`
  result.
- `Handler` (handler.dfy): `Dispatch` is the decision `button_handler` takes for a
  callback key: topic key first, then the back key, then the first topic (in catalog
  order) whose lessons contain the key, else no edit. `ButtonHandler` is the handler
  itself, an imperative method. It records the platform calls it makes, in order:
  `Answer`, then at most one `EditMessage`. Its lesson search is a loop that stops
  at the first match, as the source's `for ... break` does. The method is proved
  equal to `[Answer]` followed by the edit `Dispatch` asks for. `Start` is the
  `/start` reply.
- `Navigation` (navigation.dfy): the message on screen across a series of button
  presses, as a fold of `Dispatch` over the keys (`Step`, `Run`). `Dispatch` reads only
  the key and the catalog, as `button_handler` does, so a screen never influences the
  next one by construction. On that fold the lemmas prove that "back" returns to the
  root menu after any history, that pressing a key twice equals pressing it once, and
  that every button the bot ever displays leads to an edit.

The global `fields` of the source is a parameter `c` of every operation. The model
holds for any catalog. Where a property needs unique keys, it requires `WellFormed(c)`.

Behaviour of the code worth noting, which the model follows exactly:

- Lesson buttons are labelled with the full lesson text. Nothing is cut at the first
  colon (bot.py:47).
- A lesson view holds the lesson text and a lone back button. It has no video or
  document links (bot.py:73-78).
- A callback key that matches nothing is acknowledged and then edits nothing. There is
  no fall-back to the root menu (bot.py:69-79).
- The catalog may be empty. Nothing in the code needs a topic.

## Model

| member | source | states |
|---|---|---|
| Catalog.TopicIndex | bot.py:62-64 | The `data in fields` / `fields[data]` lookup: `None` exactly when no topic has the key; otherwise the position of the first topic with that key. |
| Catalog.LessonIndex | bot.py:72-74 | The `data in field["lessons"]` lookup: `None` exactly when no lesson of the topic has the key; otherwise the position of the first lesson with that key. |
| Catalog.LessonOwner | bot.py:71-79 | The topic where the `for field in fields.values()` search stops: `None` exactly when no topic has a lesson with the key; otherwise the first topic, in catalog order, that has one, with no earlier topic having one. |
| Catalog.TopicIndexOfKey | bot.py:45 | In a well-formed catalog, looking up the key of the topic at position `j` finds position `j`. |
| Catalog.LessonTextOfKey | bot.py:74 | With unique lesson keys, `field["lessons"][key]` for a lesson's own key is that lesson's text. |
| Catalog.HasLesson | bot.py:72 | The membership test `data in field["lessons"]` holds exactly when some lesson of the topic has the key. |
| Catalog.LessonText | bot.py:74 | `field['lessons'][data]`, defined only when the key is present: the text of a lesson carrying that key, and with unique lesson keys the text of every lesson carrying it. |
| Catalog.SourceFields | bot.py:12-34 | The shipped catalog, topic for topic and lesson for lesson, in declaration order. It is a constant; `SourceFieldsWellFormed` and the three `Source…Example` lemmas state what is proved about it. |
| Catalog.SourceFieldsWellFormed | bot.py:12-34 | The shipped catalog has unique topic keys and unique lesson keys within each topic. |
| Menus.MainMenu | bot.py:37-41 | The root keyboard has one row per topic, in catalog order. Row `j` is a single button labelled with topic `j`'s title whose callback is topic `j`'s key. |
| Menus.LessonRows | bot.py:46-48 | One row per lesson, in order. Row `i` is a single button labelled with lesson `i`'s full text whose callback is lesson `i`'s key. |
| Menus.LessonsMenu | bot.py:44-50 | A `KeyError` for key `k` exactly when `k` is not a topic key. Otherwise one single-button row per lesson of the topic, then exactly one final row with the back button (`رجوع`, `back_to_main`). The length is the number of lessons plus one. |
| Menus.LessonsMenuOfTopic | bot.py:44-50 | In a well-formed catalog, the menu for topic `j`'s key succeeds and lists topic `j`'s own lessons and then the back row. |
| Handler.TopicPrompt | bot.py:64 | The topic header: the fixed opening words "اختر درسًا من مجال ", then the title verbatim, then a colon, so the title can be read back. |
| Handler.TopicPromptInjective | bot.py:64 | Two topic headers are equal only when their titles are. |
| Handler.Dispatch | bot.py:62-79 | The decision `button_handler` takes for a callback key. It has no contract of its own; its meaning is stated by `TopicKeyShowsLessons` (topic keys first), `BackShowsRoot` (then the back key), `LessonKeyShowsFirstOwner` (then the first topic holding the lesson key) and `NoEditIff` (nothing else edits), and `ButtonHandler` is proved to carry it out. |
| Handler.Start | bot.py:53-54 | The `/start` reply: the greeting with the root menu. It has no contract of its own; `StartShowsRoot` states that its keyboard is the one "back" shows and that its text ends with the root prompt. |
| Handler.ButtonHandler | bot.py:57-79 | The recorded effects are `Answer` followed by the edit `Dispatch` decides, if any. The answer comes first, always, unknown keys included. There are one or two effects, and two exactly when `Dispatch` shows something. |
| Handler.StartShowsRoot | bot.py:53-54 | `/start` sends the same keyboard that "back" shows. Its greeting ends with the root prompt that "back" shows. |
| Handler.TopicKeyShowsLessons | bot.py:62-66 | A topic key shows "اختر درسًا من مجال {title}:" with that topic's lesson list. This holds even when the key is also the back key or a lesson key, so a topic key takes precedence. |
| Handler.BackShowsRoot | bot.py:67-68 | `back_to_main`, unless it is a topic key, shows the root prompt and the root menu, and depends on nothing but the catalog. |
| Handler.LessonKeyShowsFirstOwner | bot.py:69-79 | A key that is neither a topic key nor the back key, and that belongs to lesson `i` of topic `j` with no earlier topic holding it, shows exactly that lesson's text under one row holding only the back button. |
| Handler.NoEditIff | bot.py:62-79 | A key edits nothing exactly when it is neither a topic key, nor the back key, nor any topic's lesson key (both directions). |
| Navigation.RunSnoc | bot.py:57-79 | Pressing one more key is one more step from the message the earlier presses left. |
| Navigation.StepIgnoresHistory | bot.py:57-79 | A press that edits sets the message independently of what was shown before. A press that does not edit leaves the message unchanged. This holds by the construction of `Step`, since `Dispatch` takes no screen. |
| Navigation.BackAfterAnyHistory | bot.py:67-68 | After any series of presses, pressing "back" (when no topic uses its key) shows the root prompt and root menu. |
| Navigation.PressTwiceIsPressOnce | bot.py:57-79 | Pressing any key twice in a row leaves the same message as pressing it once. This covers the idempotence of "back". |
| Navigation.TopicBackTopic | bot.py:62-68 | Opening a topic, going back and opening it again shows the same message as opening it once, after any history. |
| Navigation.RootButtonOpensTopic | bot.py:38-66 | Pressing the `j`-th button of the `/start` message opens topic `j`'s lesson list with its prompt. |
| Navigation.LessonKeyEdits | bot.py:70-79 | A key that some topic lists as a lesson always causes an edit. |
| Navigation.ShownIsLive | bot.py:44-79 | Every button on a message the handler shows causes an edit when pressed. |
| Navigation.OpeningIsLive | bot.py:37-54 | Every button of the `/start` message causes an edit when pressed. |
| Navigation.StepKeepsLive | bot.py:37-79 | A press keeps the "every button causes an edit" property of the message. |
| Navigation.ReachableIsLive | bot.py:37-79 | From a message whose buttons all work, after any series of presses every displayed button still causes an edit, so the bot's own keyboards never reach the no-edit case. |
| Navigation.SourceTopicExample | bot.py:12-50 | On the shipped catalog, "frontend" shows its prompt, two buttons labelled with the full lesson texts, and the back row. |
| Navigation.SourceLessonExample | bot.py:12-79 | On the shipped catalog, "js2" shows its full lesson text under a lone back button. |
| Navigation.SourceUnknownExample | bot.py:12-79 | On the shipped catalog, "html" (no topic, no lesson) edits nothing. |

## Left out

- The Telegram API calls (`query.answer`, `edit_message_text`, `reply_text`) are
  recorded as `Effect` values. Their transport, failures and `async`/`await`
  scheduling are not modelled, because they are library code outside bot.py.
- `InlineKeyboardButton`/`InlineKeyboardMarkup` are plain `Button` and `Keyboard`
  data. The markup wrapper adds nothing the handler decides.
- `load_dotenv`, reading `BOT_TOKEN`, `ApplicationBuilder`, handler registration and
  `run_polling` (bot.py:8-9, 82-86) are left out. They are process bootstrap and
  configuration and make no decisions.
- The callback's `query.data` is taken to be a string. The platform can deliver no
  data, but the bot only sends buttons that carry callback data.
- Python strings are sequences of Unicode code points, and so are Dafny strings
  here. No encoding or normalisation is modelled.
