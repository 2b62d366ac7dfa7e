/** The bot's content catalog (`fields` in bot.py): an ordered dictionary from topic
    key to a topic with a title and an ordered dictionary from lesson key to lesson
    text. Dictionaries keep insertion order, and that order is what the menus show,
    so both levels are sequences here; `WellFormed` adds what a dictionary
    guarantees, that no key occurs twice on the same level. */
module Catalog {

  datatype Option<T> = None | Some(value: T)

  /** One entry of a topic's `lessons` dictionary: key and full lesson text. */
  datatype Lesson = Lesson(key: string, text: string)

  /** One entry of `fields`: topic key, its `title` and its `lessons`. */
  datatype Topic = Topic(key: string, title: string, lessons: seq<Lesson>)

  type Fields = seq<Topic>

  predicate UniqueLessonKeys(ls: seq<Lesson>) {
    forall i, j :: 0 <= i < j < |ls| ==> ls[i].key != ls[j].key
  }

  /** The catalog is a dictionary of dictionaries: topic keys are unique, and so
      are the lesson keys inside each topic. A lesson key may still occur in
      several topics. */
  predicate WellFormed(c: Fields) {
    && (forall i, j :: 0 <= i < j < |c| ==> c[i].key != c[j].key)
    && (forall j :: 0 <= j < |c| ==> UniqueLessonKeys(c[j].lessons))
  }

  ghost predicate IsTopicKey(c: Fields, k: string) {
    exists j :: 0 <= j < |c| && c[j].key == k
  }

  ghost predicate IsLessonKeyOf(t: Topic, k: string) {
    exists i :: 0 <= i < |t.lessons| && t.lessons[i].key == k
  }

  ghost predicate IsLessonKey(c: Fields, k: string) {
    exists j :: 0 <= j < |c| && IsLessonKeyOf(c[j], k)
  }

  /** Where `k in fields` finds the key: the first topic whose key is `k`. */
  function TopicIndex(c: Fields, k: string): (r: Option<nat>)
    ensures r.None? <==> !IsTopicKey(c, k)
    ensures r.Some? ==> r.value < |c| && c[r.value].key == k
    ensures r.Some? ==> forall j :: 0 <= j < r.value ==> c[j].key != k
  {
    if c == [] then None
    else if c[0].key == k then Some(0)
    else match TopicIndex(c[1..], k)
      case None => None
      case Some(j) => Some(j + 1)
  }

  /** Where `k in field["lessons"]` finds the key inside one topic. */
  function LessonIndex(ls: seq<Lesson>, k: string): (r: Option<nat>)
    ensures r.None? <==> forall i :: 0 <= i < |ls| ==> ls[i].key != k
    ensures r.Some? ==> r.value < |ls| && ls[r.value].key == k
    ensures r.Some? ==> forall i :: 0 <= i < r.value ==> ls[i].key != k
  {
    if ls == [] then None
    else if ls[0].key == k then Some(0)
    else match LessonIndex(ls[1..], k)
      case None => None
      case Some(i) => Some(i + 1)
  }

  /** `k in field["lessons"]`: some lesson of the topic has key `k`. */
  predicate HasLesson(t: Topic, k: string): (b: bool)
    ensures b <==> IsLessonKeyOf(t, k)
  {
    LessonIndex(t.lessons, k).Some?
  }

  /** `field["lessons"][k]`, only asked for when the key is present: the text of
      the lesson with key `k`, and with unique keys of the only such lesson. */
  function LessonText(t: Topic, k: string): (r: string)
    requires HasLesson(t, k)
    ensures exists i :: 0 <= i < |t.lessons| && t.lessons[i].key == k && t.lessons[i].text == r
    ensures UniqueLessonKeys(t.lessons) ==>
      forall i :: 0 <= i < |t.lessons| && t.lessons[i].key == k ==> t.lessons[i].text == r
  {
    t.lessons[LessonIndex(t.lessons, k).value].text
  }

  /** The first topic, in catalog order, whose lessons contain `k`: the topic at
      which the `for field in fields.values()` search of bot.py stops. */
  function LessonOwner(c: Fields, k: string): (r: Option<nat>)
    ensures r.None? <==> !IsLessonKey(c, k)
    ensures r.Some? ==> r.value < |c| && HasLesson(c[r.value], k)
    ensures r.Some? ==> forall j :: 0 <= j < r.value ==> !HasLesson(c[j], k)
  {
    if c == [] then None
    else if HasLesson(c[0], k) then Some(0)
    else match LessonOwner(c[1..], k)
      case None => None
      case Some(j) => Some(j + 1)
  }

  /** In a well-formed catalog the lookup of a topic's own key finds that topic. */
  lemma TopicIndexOfKey(c: Fields, j: nat)
    requires WellFormed(c) && j < |c|
    ensures TopicIndex(c, c[j].key) == Some(j)
  {
    assert IsTopicKey(c, c[j].key);
  }

  /** With unique lesson keys, looking up a lesson's own key yields its own text. */
  lemma LessonTextOfKey(t: Topic, i: nat)
    requires UniqueLessonKeys(t.lessons) && i < |t.lessons|
    ensures HasLesson(t, t.lessons[i].key)
    ensures LessonText(t, t.lessons[i].key) == t.lessons[i].text
  {
  }

  /** The catalog bot.py ships with (bot.py:12-34). */
  function SourceFields(): Fields {
    [ Topic("frontend", "HTML & CSS",
        [ Lesson("html1", "الدرس 1: مقدمة في HTML..."),
          Lesson("css1", "الدرس 2: تنسيقات CSS...") ]),
      Topic("js", "JavaScript",
        [ Lesson("js1", "الدرس 1: المتغيرات والدوال في JavaScript..."),
          Lesson("js2", "الدرس 2: التعامل مع DOM...") ]),
      Topic("backend", "Backend",
        [ Lesson("php1", "الدرس 1: مقدمة في PHP..."),
          Lesson("db1", "الدرس 2: قواعد البيانات MySQL...") ]) ]
  }

  lemma SourceFieldsWellFormed()
    ensures WellFormed(SourceFields())
  {
  }
}
