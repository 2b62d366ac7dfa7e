/** The two inline keyboards of bot.py: the root menu (`main_menu`) and a topic's
    lesson list (`lessons_menu`). A button is a label and the callback key it sends
    back; a keyboard is a list of rows of buttons. */
module Menus {
  import opened Catalog

  datatype Button = Button(text: string, callback: string)

  type Keyboard = seq<seq<Button>>

  /** The reserved callback key of the "back" button. */
  const BackKey: string := "back_to_main"

  /** The label of the "back" button ("back", in Arabic). */
  const BackLabel: string := "رجوع"

  const BackButton: Button := Button(BackLabel, BackKey)

  /** `lessons_menu` indexes the catalog with `fields[field_key]`, which raises
      `KeyError` for a key that is not a topic. */
  datatype Result<T> = Ok(value: T) | KeyError(key: string)

  /** `main_menu`: one row per topic, in catalog order, each row a single button
      labelled with the topic's title that sends the topic's key. */
  function MainMenu(c: Fields): (kb: Keyboard)
    ensures |kb| == |c|
    ensures forall j :: 0 <= j < |c| ==> kb[j] == [Button(c[j].title, c[j].key)]
  {
    if c == [] then [] else [[Button(c[0].title, c[0].key)]] + MainMenu(c[1..])
  }

  /** The comprehension in `lessons_menu`: one row per lesson, in order, each row a
      single button labelled with the full lesson text that sends the lesson key. */
  function LessonRows(ls: seq<Lesson>): (kb: Keyboard)
    ensures |kb| == |ls|
    ensures forall i :: 0 <= i < |ls| ==> kb[i] == [Button(ls[i].text, ls[i].key)]
  {
    if ls == [] then [] else [[Button(ls[0].text, ls[0].key)]] + LessonRows(ls[1..])
  }

  /** `kb` is the lesson list of topic `t`: a row per lesson, then the back row. */
  ghost predicate IsLessonList(kb: Keyboard, t: Topic) {
    && |kb| == |t.lessons| + 1
    && (forall i :: 0 <= i < |t.lessons| ==> kb[i] == [Button(t.lessons[i].text, t.lessons[i].key)])
    && kb[|t.lessons|] == [BackButton]
  }

  /** `lessons_menu(k)`: a `KeyError` exactly when `k` is not a topic key;
      otherwise the lesson list of the topic `k` names, ending in the back row. */
  function LessonsMenu(c: Fields, k: string): (r: Result<Keyboard>)
    ensures r.KeyError? <==> !IsTopicKey(c, k)
    ensures r.KeyError? ==> r.key == k
    ensures r.Ok? ==> IsLessonList(r.value, c[TopicIndex(c, k).value])
  {
    match TopicIndex(c, k)
    case None => KeyError(k)
    case Some(j) => Ok(LessonRows(c[j].lessons) + [[BackButton]])
  }

  /** In a well-formed catalog, the menu of the topic at position `j` lists the
      lessons of that very topic. */
  lemma LessonsMenuOfTopic(c: Fields, j: nat)
    requires WellFormed(c) && j < |c|
    ensures LessonsMenu(c, c[j].key).Ok?
    ensures IsLessonList(LessonsMenu(c, c[j].key).value, c[j])
  {
    TopicIndexOfKey(c, j);
  }
}
