/** The message a user sees over a conversation. bot.py keeps no state of its own:
    every button press edits the message it came from (or leaves it alone), so
    what is on screen after a series of presses is a fold of `Dispatch` over the
    callback keys. The lemmas here follow navigation through that fold (back after
    any history, pressing twice, topic-back-topic) and show that the bot never
    offers a button that does nothing. */
module Navigation {
  import opened Catalog
  import opened Menus
  import opened Handler

  /** The bot's message as displayed: text and inline keyboard. */
  datatype Screen = Screen(text: string, keyboard: Keyboard)

  /** The message the /start reply puts on screen. */
  function Opening(c: Fields): Screen {
    Screen(Start(c).text, Start(c).keyboard)
  }

  /** The message after one button press with key `k`. */
  function Step(c: Fields, s: Screen, k: string): Screen {
    match Dispatch(c, k)
    case NoEdit => s
    case Show(t, kb) => Screen(t, kb)
  }

  /** The message after pressing `keys` in order, starting from `s`. */
  function Run(c: Fields, s: Screen, keys: seq<string>): Screen
    decreases |keys|
  {
    if keys == [] then s else Run(c, Step(c, s, keys[0]), keys[1..])
  }

  /** Every button on the message makes the bot edit it when pressed. */
  ghost predicate Live(c: Fields, s: Screen) {
    forall r, b :: 0 <= r < |s.keyboard| && 0 <= b < |s.keyboard[r]| ==>
      Dispatch(c, s.keyboard[r][b].callback).Show?
  }

  /** One more press at the end is one more step from where the presses so far led. */
  lemma {:induction false} RunSnoc(c: Fields, s: Screen, keys: seq<string>, k: string)
    ensures Run(c, s, keys + [k]) == Step(c, Run(c, s, keys), k)
    decreases |keys|
  {
    if keys == [] {
      assert [k][1..] == [];
    } else {
      assert (keys + [k])[1..] == keys[1..] + [k];
      RunSnoc(c, Step(c, s, keys[0]), keys[1..], k);
    }
  }

  /** How `Step` is built rather than a fact proved about the bot: `Dispatch`
      takes no screen, since `button_handler` reads nothing but the callback key
      and the catalog, so a press that edits sets the message whatever was shown
      before, and a key that edits nothing leaves the message as it was. */
  lemma StepIgnoresHistory(c: Fields, s1: Screen, s2: Screen, k: string)
    ensures Dispatch(c, k).Show? ==> Step(c, s1, k) == Step(c, s2, k)
    ensures Dispatch(c, k).NoEdit? ==> Step(c, s1, k) == s1
  {
  }

  /** Whatever was pressed before, "back" leads to the root prompt and root menu. */
  lemma BackAfterAnyHistory(c: Fields, s: Screen, keys: seq<string>)
    requires !IsTopicKey(c, BackKey)
    ensures Run(c, s, keys + [BackKey]) == Screen(RootText, MainMenu(c))
  {
    RunSnoc(c, s, keys, BackKey);
  }

  /** Pressing the same key twice has the effect of pressing it once; for "back"
      this is the idempotence of returning to the root menu. */
  lemma PressTwiceIsPressOnce(c: Fields, s: Screen, keys: seq<string>, k: string)
    ensures Run(c, s, keys + [k, k]) == Run(c, s, keys + [k])
  {
    assert keys + [k, k] == (keys + [k]) + [k];
    RunSnoc(c, s, keys + [k], k);
    RunSnoc(c, s, keys, k);
  }

  /** Opening a topic, going back and opening it again shows the same lesson list
      both times, whatever came before. */
  lemma TopicBackTopic(c: Fields, s: Screen, keys: seq<string>, t: string)
    requires IsTopicKey(c, t)
    ensures Run(c, s, keys + [t, BackKey, t]) == Run(c, s, keys + [t])
  {
    assert keys + [t, BackKey, t] == ((keys + [t]) + [BackKey]) + [t];
    RunSnoc(c, s, (keys + [t]) + [BackKey], t);
    RunSnoc(c, s, keys + [t], BackKey);
    RunSnoc(c, s, keys, t);
  }

  /** Pressing the `j`-th button of the root menu opens the `j`-th topic. */
  lemma RootButtonOpensTopic(c: Fields, j: nat)
    requires WellFormed(c) && j < |c|
    ensures Step(c, Opening(c), Opening(c).keyboard[j][0].callback).text == TopicPrompt(c[j].title)
    ensures IsLessonList(Step(c, Opening(c), Opening(c).keyboard[j][0].callback).keyboard, c[j])
  {
    TopicKeyShowsLessons(c, j);
  }

  /** A key that some topic lists as a lesson is always answered with an edit. */
  lemma LessonKeyEdits(c: Fields, j: nat, i: nat)
    requires j < |c| && i < |c[j].lessons|
    ensures Dispatch(c, c[j].lessons[i].key).Show?
  {
    var k := c[j].lessons[i].key;
    assert IsLessonKeyOf(c[j], k);
    assert IsLessonKey(c, k);
    NoEditIff(c, k);
  }

  /** Whatever a press shows has only buttons that work. */
  lemma ShownIsLive(c: Fields, k: string)
    requires Dispatch(c, k).Show?
    ensures Live(c, Step(c, Screen("", []), k))
  {
    var kb: Keyboard := Dispatch(c, k).keyboard;
    forall r: int, b: int | 0 <= r < |kb| && 0 <= b < |kb[r]|
      ensures Dispatch(c, kb[r][b].callback).Show?
    {
      match TopicIndex(c, k)
      case Some(j) =>
        if r < |c[j].lessons| {
          LessonKeyEdits(c, j, r);
        }
      case None =>
        if k != BackKey {
          assert kb[r][b] == BackButton;
        } else {
          assert IsTopicKey(c, kb[r][b].callback);
        }
    }
  }

  /** The /start message has only buttons that work. */
  lemma OpeningIsLive(c: Fields)
    ensures Live(c, Opening(c))
  {
    forall r: int, b: int | 0 <= r < |c| && 0 <= b < |Opening(c).keyboard[r]|
      ensures Dispatch(c, Opening(c).keyboard[r][b].callback).Show?
    {
      assert IsTopicKey(c, c[r].key);
    }
  }

  /** Liveness is kept by every press. */
  lemma StepKeepsLive(c: Fields, s: Screen, k: string)
    requires Live(c, s)
    ensures Live(c, Step(c, s, k))
  {
    if Dispatch(c, k).Show? {
      ShownIsLive(c, k);
      StepIgnoresHistory(c, s, Screen("", []), k);
    }
  }

  /** However the user navigates after /start, every button on the message makes
      the bot edit it: the dispatcher's no-edit case is never reached through
      the bot's own keyboards. */
  lemma {:induction false} ReachableIsLive(c: Fields, s: Screen, keys: seq<string>)
    requires Live(c, s)
    ensures Live(c, Run(c, s, keys))
    decreases |keys|
  {
    if keys != [] {
      StepKeepsLive(c, s, keys[0]);
      ReachableIsLive(c, Step(c, s, keys[0]), keys[1..]);
    }
  }

  /** On the shipped catalog, a topic's lesson buttons carry the full lesson text,
      colon and all. */
  lemma SourceTopicExample()
    ensures Dispatch(SourceFields(), "frontend") ==
      Show("اختر درسًا من مجال HTML & CSS:",
        [ [Button("الدرس 1: مقدمة في HTML...", "html1")],
          [Button("الدرس 2: تنسيقات CSS...", "css1")],
          [Button("رجوع", "back_to_main")] ])
  {
    var c := SourceFields();
    SourceFieldsWellFormed();
    TopicKeyShowsLessons(c, 0);
    var kb: Keyboard := Dispatch(c, "frontend").keyboard;
    assert kb == [kb[0], kb[1], kb[2]];
  }

  /** On the shipped catalog, a lesson key shows the full lesson text under a
      lone back button. */
  lemma SourceLessonExample()
    ensures Dispatch(SourceFields(), "js2") == Show("الدرس 2: التعامل مع DOM...", [[BackButton]])
  {
    var c := SourceFields();
    SourceFieldsWellFormed();
    assert !IsTopicKey(c, "js2") by {
      assert forall j :: 0 <= j < |c| ==> c[j].key != "js2";
    }
    assert !IsLessonKeyOf(c[0], "js2") by {
      assert forall i :: 0 <= i < |c[0].lessons| ==> c[0].lessons[i].key != "js2";
    }
    LessonKeyShowsFirstOwner(c, 1, 1);
  }

  /** On the shipped catalog, a key that is no topic and no lesson edits nothing. */
  lemma SourceUnknownExample()
    ensures Dispatch(SourceFields(), "html") == NoEdit
  {
    var c := SourceFields();
    assert !IsTopicKey(c, "html") by {
      assert forall j :: 0 <= j < |c| ==> c[j].key != "html";
    }
    assert !IsLessonKey(c, "html") by {
      forall j | 0 <= j < |c| ensures !IsLessonKeyOf(c[j], "html") {
        assert forall i :: 0 <= i < |c[j].lessons| ==> c[j].lessons[i].key != "html";
      }
    }
    NoEditIff(c, "html");
  }
}
