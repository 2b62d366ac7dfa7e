/** The two update handlers of bot.py. `start` answers the /start command with the
    root menu; `button_handler` acknowledges a button press and then, depending on
    the callback key, edits the message into a topic's lesson list, the root menu
    or a lesson's text, or leaves it alone. The platform calls they make are
    recorded as effects, in the order they are made. */
module Handler {
  import opened Catalog
  import opened Menus

  /** Root prompt shown after "back" ("Choose one of the fields:"). */
  const RootText: string := "اختر أحد المجالات:"

  /** The /start greeting: a welcome line followed by the root prompt. */
  const StartText: string := "مرحبًا بك في بوت تطوير الويب!\nاختر أحد المجالات:"

  /** Opening words of a topic's header ("Choose a lesson from the field "). */
  const TopicPromptHead: string := "اختر درسًا من مجال "

  /** Header of a topic's lesson list ("Choose a lesson from the field {title}:"):
      the fixed opening words, the title verbatim, and a closing colon. */
  function TopicPrompt(title: string): (r: string)
    ensures |r| == |TopicPromptHead| + |title| + 1
    ensures r[..|TopicPromptHead|] == TopicPromptHead
    ensures r[|TopicPromptHead|..|r| - 1] == title
    ensures r[|r| - 1] == ':'
  {
    TopicPromptHead + title + ":"
  }

  /** Different titles give different headers: the title can be read back. */
  lemma TopicPromptInjective(a: string, b: string)
    requires TopicPrompt(a) == TopicPrompt(b)
    ensures a == b
  {
    var r := TopicPrompt(a);
    assert a == r[|TopicPromptHead|..|r| - 1];
  }

  /** What a callback does to the message it came from. */
  datatype Outcome = Show(text: string, keyboard: Keyboard) | NoEdit

  /** A call into the messaging platform. */
  datatype Effect =
    | Answer                                        // query.answer()
    | EditMessage(text: string, keyboard: Keyboard) // query.edit_message_text(...)
    | ReplyText(text: string, keyboard: Keyboard)   // update.message.reply_text(...)

  /** The edit an outcome asks for, if any. */
  function EditsFor(o: Outcome): seq<Effect> {
    match o
    case NoEdit => []
    case Show(t, kb) => [EditMessage(t, kb)]
  }

  /** The decision `button_handler` takes for callback key `data`: a topic key
      first, then the back key, then the first topic holding a lesson with that
      key; anything else changes nothing. */
  function Dispatch(c: Fields, data: string): Outcome {
    match TopicIndex(c, data)
    case Some(j) => Show(TopicPrompt(c[j].title), LessonsMenu(c, data).value)
    case None =>
      if data == BackKey then Show(RootText, MainMenu(c))
      else match LessonOwner(c, data)
        case Some(j) => Show(LessonText(c[j], data), [[BackButton]])
        case None => NoEdit
  }

  /** `button_handler`: answers the query, then makes at most one edit. The lesson
      search walks the topics in order and stops at the first one that has the key. */
  method ButtonHandler(c: Fields, data: string) returns (effects: seq<Effect>)
    ensures effects == [Answer] + EditsFor(Dispatch(c, data))
    ensures 1 <= |effects| <= 2 && effects[0] == Answer
    ensures |effects| == 2 <==> Dispatch(c, data).Show?
  {
    effects := [Answer];
    var topic := TopicIndex(c, data);
    if topic.Some? {
      var menu := LessonsMenu(c, data);
      effects := effects + [EditMessage(TopicPrompt(c[topic.value].title), menu.value)];
    } else if data == BackKey {
      effects := effects + [EditMessage(RootText, MainMenu(c))];
    } else {
      var j := 0;
      while j < |c|
        invariant 0 <= j <= |c|
        invariant forall i :: 0 <= i < j ==> !HasLesson(c[i], data)
        invariant effects == [Answer]
      {
        if HasLesson(c[j], data) {
          effects := effects + [EditMessage(LessonText(c[j], data), [[BackButton]])];
          break;
        }
        j := j + 1;
      }
    }
  }

  /** `start`: replies to /start with the greeting and the root menu. */
  function Start(c: Fields): Effect {
    ReplyText(StartText, MainMenu(c))
  }

  /** /start and "back" show the same root menu; the greeting ends with the same
      root prompt that "back" shows. */
  lemma StartShowsRoot(c: Fields)
    requires !IsTopicKey(c, BackKey)
    ensures Start(c).keyboard == Dispatch(c, BackKey).keyboard
    ensures |RootText| < |Start(c).text|
    ensures Start(c).text[|Start(c).text| - |RootText|..] == RootText
  {
  }

  /** A topic key opens that topic's lesson list, and takes precedence over the
      back key and over lesson keys: it does so even when the key is also
      `BackKey` or some topic's lesson key. */
  lemma TopicKeyShowsLessons(c: Fields, j: nat)
    requires WellFormed(c) && j < |c|
    ensures Dispatch(c, c[j].key).Show?
    ensures Dispatch(c, c[j].key).text == TopicPrompt(c[j].title)
    ensures IsLessonList(Dispatch(c, c[j].key).keyboard, c[j])
  {
    TopicIndexOfKey(c, j);
  }

  /** The back key, unless a topic claims it, shows the root prompt and the root
      menu; the outcome depends on nothing but the catalog. */
  lemma BackShowsRoot(c: Fields)
    requires !IsTopicKey(c, BackKey)
    ensures Dispatch(c, BackKey) == Show(RootText, MainMenu(c))
  {
  }

  /** Any other key that some topic's lessons hold shows the lesson of the FIRST
      such topic, with a keyboard holding only the back button. */
  lemma LessonKeyShowsFirstOwner(c: Fields, j: nat, i: nat)
    requires WellFormed(c) && j < |c| && i < |c[j].lessons|
    requires !IsTopicKey(c, c[j].lessons[i].key) && c[j].lessons[i].key != BackKey
    requires forall p :: 0 <= p < j ==> !IsLessonKeyOf(c[p], c[j].lessons[i].key)
    ensures Dispatch(c, c[j].lessons[i].key) == Show(c[j].lessons[i].text, [[BackButton]])
  {
    var k := c[j].lessons[i].key;
    LessonTextOfKey(c[j], i);
    assert IsLessonKeyOf(c[j], k);
    assert LessonOwner(c, k) == Some(j);
  }

  /** A key leaves the message unedited exactly when it is neither a topic key,
      nor the back key, nor any topic's lesson key. */
  lemma NoEditIff(c: Fields, k: string)
    ensures Dispatch(c, k) == NoEdit <==> !IsTopicKey(c, k) && k != BackKey && !IsLessonKey(c, k)
  {
  }
}
