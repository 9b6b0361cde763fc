/** The static word catalog of the drawing game and its lookup helpers
    (draw-guess-game/src/lib/gameLogic.ts, lines 1-47). */
module WordBank {

  datatype Option<T> = None | Some(value: T)

  /** One entry of the catalog: a category key and its ordered word list. */
  datatype Category = Category(key: string, words: seq<string>)

  /** The record getRandomWord returns. */
  datatype WordInfo = WordInfo(word: string, category: string)

  const Animals: seq<string> := [
    "猫", "狗", "鸟", "鱼", "兔子", "老虎", "狮子", "大象", "熊猫", "猴子",
    "蛇", "马", "牛", "羊", "猪", "鸡", "鸭", "蝴蝶", "蜜蜂", "乌龟"]

  const Food: seq<string> := [
    "苹果", "香蕉", "西瓜", "草莓", "蛋糕", "披萨", "汉堡", "冰淇淋", "面包", "鸡蛋",
    "米饭", "面条", "饺子", "包子", "葡萄", "橙子", "胡萝卜", "西红柿", "玉米", "薯条"]

  const Objects: seq<string> := [
    "房子", "汽车", "飞机", "轮船", "自行车", "电视", "电脑", "手机", "书", "钟表",
    "伞", "眼镜", "帽子", "鞋子", "椅子", "桌子", "灯泡", "钥匙", "杯子", "相机"]

  const Nature: seq<string> := [
    "太阳", "月亮", "星星", "云朵", "彩虹", "山", "河流", "大海", "树", "花",
    "草", "雪花", "雨滴", "闪电", "火", "沙漠", "瀑布", "火山", "岛屿", "森林"]

  const People: seq<string> := [
    "医生", "警察", "老师", "厨师", "消防员", "宇航员", "农民", "画家", "歌手", "运动员",
    "护士", "司机", "飞行员", "科学家", "工人", "学生", "舞蹈家", "魔术师", "小丑", "超人"]

  const Activities: seq<string> := [
    "跑步", "游泳", "踢足球", "打篮球", "弹钢琴", "画画", "唱歌", "跳舞", "钓鱼", "滑雪",
    "骑马", "开车", "飞行", "做饭", "睡觉", "读书", "写字", "打电话", "拍照", "购物"]

  /** wordCategories, in the key order of the object literal. */
  const Catalog: seq<Category> := [
    Category("animals", Animals),
    Category("food", Food),
    Category("objects", Objects),
    Category("nature", Nature),
    Category("people", People),
    Category("activities", Activities)]

  /** Object.keys(wordCategories). */
  const Keys: seq<string> := ["animals", "food", "objects", "nature", "people", "activities"]

  ghost predicate NoDuplicates(s: seq<string>) {
    forall i, j :: 0 <= i < j < |s| ==> s[i] != s[j]
  }

  ghost predicate Disjoint(a: seq<string>, b: seq<string>) {
    forall i, j :: 0 <= i < |a| && 0 <= j < |b| ==> a[i] != b[j]
  }

  /** Object.values(cats).flat(): the word lists concatenated in key order. */
  function Flatten(cats: seq<Category>): (r: seq<string>)
    ensures |r| == TotalSize(cats)
    ensures forall w :: w in r <==> exists i :: 0 <= i < |cats| && w in cats[i].words
  {
    if cats == [] then []
    else
      var rest := Flatten(cats[1..]);
      assert forall i :: 0 < i < |cats| ==> cats[i] == cats[1..][i - 1];
      cats[0].words + rest
  }

  function TotalSize(cats: seq<Category>): nat {
    if cats == [] then 0 else |cats[0].words| + TotalSize(cats[1..])
  }

  /** getAllWords (lines 30-32): the six lists in key order, which is what flattening
      the catalog gives (CatalogShape). */
  function AllWords(): (r: seq<string>)
    ensures |r| == 120
  {
    Animals + Food + Objects + Nature + People + Activities
  }

  /** The first category of cats whose list contains w (the for-of search used by
      getSimilarWords and by getHint), or None when no list contains it. */
  function FindCategory(cats: seq<Category>, w: string): (r: Option<nat>)
    ensures r.Some? ==> r.value < |cats| && w in cats[r.value].words
                        && forall j :: 0 <= j < r.value ==> w !in cats[j].words
    ensures r.None? <==> forall i :: 0 <= i < |cats| ==> w !in cats[i].words
  {
    if cats == [] then None
    else if w in cats[0].words then Some(0)
    else
      match FindCategory(cats[1..], w)
      case None =>
        assert forall i :: 0 < i < |cats| ==> cats[i] == cats[1..][i - 1];
        None
      case Some(k) =>
        assert forall j :: 0 < j <= k ==> cats[j] == cats[1..][j - 1];
        Some(k + 1)
  }

  /** The word list stored under key in cats, or [] when no entry has that key. */
  function Lookup(cats: seq<Category>, key: string): (r: seq<string>)
    ensures forall i :: (0 <= i < |cats| && cats[i].key == key
                         && forall j :: 0 <= j < i ==> cats[j].key != key) ==> r == cats[i].words
    ensures (forall i :: 0 <= i < |cats| ==> cats[i].key != key) ==> r == []
  {
    if cats == [] then []
    else if cats[0].key == key then cats[0].words
    else
      assert forall i :: 0 < i < |cats| ==> cats[i] == cats[1..][i - 1];
      Lookup(cats[1..], key)
  }

  /** getWordsByCategory (lines 45-47): the key's list, or [] for a key the catalog lacks. */
  function WordsByCategory(category: string): (r: seq<string>)
    ensures forall i :: 0 <= i < |Catalog| && Catalog[i].key == category ==> r == Catalog[i].words
    ensures category !in Keys ==> r == []
  {
    Lookup(Catalog, category)
  }

  /** Math.floor(draw * n) for a draw of Math.random() in [0, 1). */
  function ScaledIndex(draw: real, n: nat): (i: nat)
    requires 0.0 <= draw < 1.0 && n > 0
    ensures i < n
  {
    assert draw * (n as real) < n as real;
    (draw * (n as real)).Floor
  }

  /** getRandomWord (lines 35-42), with its two Math.random() draws as parameters:
      a category first, then a word within that category. */
  function RandomWord(categoryDraw: real, wordDraw: real): (r: WordInfo)
    requires 0.0 <= categoryDraw < 1.0 && 0.0 <= wordDraw < 1.0
    ensures r.category in Keys
  {
    CatalogShape();
    var c := Catalog[ScaledIndex(categoryDraw, |Keys|)];
    WordInfo(c.words[ScaledIndex(wordDraw, |c.words|)], c.key)
  }

  /** The pair drawn is a category key and a word listed under it, hence a word of
      getAllWords. */
  lemma RandomWordInCatalog(categoryDraw: real, wordDraw: real)
    requires 0.0 <= categoryDraw < 1.0 && 0.0 <= wordDraw < 1.0
    ensures var r := RandomWord(categoryDraw, wordDraw);
            r.category in Keys && r.word in WordsByCategory(r.category) && r.word in AllWords()
  {
    CatalogShape();
  }

  /** Every (category, word) pair is returned for some pair of draws. */
  lemma RandomWordReaches(i: nat, j: nat)
    requires i < |Catalog| && j < |Catalog[i].words|
    ensures RandomWord(i as real / |Keys| as real, j as real / |Catalog[i].words| as real)
            == WordInfo(Catalog[i].words[j], Catalog[i].key)
  {
    CatalogShape();
    ScaledIndexOf(i, |Keys|);
    ScaledIndexOf(j, |Catalog[i].words|);
  }

  lemma ScaledIndexOf(k: nat, n: nat)
    requires k < n
    ensures 0.0 <= k as real / n as real < 1.0
    ensures ScaledIndex(k as real / n as real, n) == k
  {
    assert (k as real / n as real) * (n as real) == k as real;
  }

  // ---- Catalog invariants ----

  /** Each list has no repeated word. The proofs split the pairs of positions by the two
      halves of the list, which keeps each case small for the solver. */
  lemma AnimalsDistinct() ensures NoDuplicates(Animals) {
    forall i, j | 0 <= i < j < |Animals| ensures Animals[i] != Animals[j] {
      if j < 10 {
      } else if i < 10 {
      } else {
      }
    }
  }

  lemma FoodDistinct() ensures NoDuplicates(Food) {
    forall i, j | 0 <= i < j < |Food| ensures Food[i] != Food[j] {
      if j < 10 {
      } else if i < 10 {
      } else {
      }
    }
  }

  lemma ObjectsDistinct() ensures NoDuplicates(Objects) {
    forall i, j | 0 <= i < j < |Objects| ensures Objects[i] != Objects[j] {
      if j < 10 {
      } else if i < 10 {
      } else {
      }
    }
  }

  lemma NatureDistinct() ensures NoDuplicates(Nature) {
    forall i, j | 0 <= i < j < |Nature| ensures Nature[i] != Nature[j] {
      if j < 10 {
      } else if i < 10 {
      } else {
      }
    }
  }

  lemma PeopleDistinct() ensures NoDuplicates(People) {
    forall i, j | 0 <= i < j < |People| ensures People[i] != People[j] {
      if j < 10 {
      } else if i < 10 {
      } else {
      }
    }
  }

  lemma ActivitiesDistinct() ensures NoDuplicates(Activities) {
    forall i, j | 0 <= i < j < |Activities| ensures Activities[i] != Activities[j] {
      if j < 10 {
      } else if i < 10 {
      } else {
      }
    }
  }

  lemma AnimalsFoodDisjoint() ensures Disjoint(Animals, Food) {}
  lemma AnimalsObjectsDisjoint() ensures Disjoint(Animals, Objects) {}
  lemma AnimalsNatureDisjoint() ensures Disjoint(Animals, Nature) {}
  lemma AnimalsPeopleDisjoint() ensures Disjoint(Animals, People) {}
  lemma AnimalsActivitiesDisjoint() ensures Disjoint(Animals, Activities) {}
  lemma FoodObjectsDisjoint() ensures Disjoint(Food, Objects) {}
  lemma FoodNatureDisjoint() ensures Disjoint(Food, Nature) {}
  lemma FoodPeopleDisjoint() ensures Disjoint(Food, People) {}
  lemma FoodActivitiesDisjoint() ensures Disjoint(Food, Activities) {}
  lemma ObjectsNatureDisjoint() ensures Disjoint(Objects, Nature) {}
  lemma ObjectsPeopleDisjoint() ensures Disjoint(Objects, People) {}
  lemma ObjectsActivitiesDisjoint() ensures Disjoint(Objects, Activities) {}
  lemma NaturePeopleDisjoint() ensures Disjoint(Nature, People) {}
  lemma NatureActivitiesDisjoint() ensures Disjoint(Nature, Activities) {}
  lemma PeopleActivitiesDisjoint() ensures Disjoint(People, Activities) {}

  lemma ConcatDistinct(a: seq<string>, b: seq<string>)
    requires NoDuplicates(a) && NoDuplicates(b) && Disjoint(a, b)
    ensures NoDuplicates(a + b)
  {
    forall i, j | 0 <= i < j < |a + b| ensures (a + b)[i] != (a + b)[j] {
      if j < |a| {
      } else if i < |a| {
        assert (a + b)[i] == a[i] && (a + b)[j] == b[j - |a|];
      } else {
        assert (a + b)[i] == b[i - |a|] && (a + b)[j] == b[j - |a|];
      }
    }
  }

  lemma ConcatDisjoint(a: seq<string>, b: seq<string>, c: seq<string>)
    requires Disjoint(a, c) && Disjoint(b, c)
    ensures Disjoint(a + b, c)
  {
    forall i, j | 0 <= i < |a + b| && 0 <= j < |c| ensures (a + b)[i] != c[j] {
      if i >= |a| { assert (a + b)[i] == b[i - |a|]; }
    }
  }

  /** Six categories of twenty words each, in key order; getAllWords is their
      concatenation, 120 words in all. */
  lemma CatalogShape()
    ensures |Catalog| == |Keys| == 6
    ensures forall i :: 0 <= i < |Catalog| ==> Catalog[i].key == Keys[i] && |Catalog[i].words| == 20
    ensures Flatten(Catalog) == AllWords()
    ensures |AllWords()| == 120
  {
    var c := Catalog;
    assert Flatten(c[6..]) == [];
    assert Flatten(c[5..]) == Activities + Flatten(c[6..]);
    assert Flatten(c[4..]) == People + Flatten(c[5..]) by { assert c[4..][1..] == c[5..]; }
    assert Flatten(c[3..]) == Nature + Flatten(c[4..]) by { assert c[3..][1..] == c[4..]; }
    assert Flatten(c[2..]) == Objects + Flatten(c[3..]) by { assert c[2..][1..] == c[3..]; }
    assert Flatten(c[1..]) == Food + Flatten(c[2..]) by { assert c[1..][1..] == c[2..]; }
    assert Flatten(c) == Animals + Flatten(c[1..]);
    assert Animals + (Food + (Objects + (Nature + (People + Activities))))
        == Animals + Food + Objects + Nature + People + Activities;
  }

  /** No word appears twice anywhere in the catalog. */
  lemma AllWordsDistinct()
    ensures NoDuplicates(AllWords())
  {
    CatalogShape();
    AnimalsDistinct(); FoodDistinct(); ObjectsDistinct();
    NatureDistinct(); PeopleDistinct(); ActivitiesDistinct();
    AnimalsFoodDisjoint(); AnimalsObjectsDisjoint(); AnimalsNatureDisjoint();
    AnimalsPeopleDisjoint(); AnimalsActivitiesDisjoint(); FoodObjectsDisjoint();
    FoodNatureDisjoint(); FoodPeopleDisjoint(); FoodActivitiesDisjoint();
    ObjectsNatureDisjoint(); ObjectsPeopleDisjoint(); ObjectsActivitiesDisjoint();
    NaturePeopleDisjoint(); NatureActivitiesDisjoint(); PeopleActivitiesDisjoint();
    var s1 := Animals;
    var s2 := s1 + Food;
    ConcatDistinct(s1, Food);
    ConcatDisjoint(Animals, Food, Objects);
    ConcatDistinct(s2, Objects);
    var s3 := s2 + Objects;
    ConcatDisjoint(Animals, Food, Nature);
    ConcatDisjoint(s2, Objects, Nature);
    ConcatDistinct(s3, Nature);
    var s4 := s3 + Nature;
    ConcatDisjoint(Animals, Food, People);
    ConcatDisjoint(s2, Objects, People);
    ConcatDisjoint(s3, Nature, People);
    ConcatDistinct(s4, People);
    var s5 := s4 + People;
    ConcatDisjoint(Animals, Food, Activities);
    ConcatDisjoint(s2, Objects, Activities);
    ConcatDisjoint(s3, Nature, Activities);
    ConcatDisjoint(s4, People, Activities);
    ConcatDistinct(s5, Activities);
  }

  /** Two different categories share no word. */
  lemma CategoriesDisjoint(p: nat, q: nat)
    requires p < q < |Catalog|
    ensures Disjoint(Catalog[p].words, Catalog[q].words)
  {
    if p == 0 && q == 1 { AnimalsFoodDisjoint(); }
    else if p == 0 && q == 2 { AnimalsObjectsDisjoint(); }
    else if p == 0 && q == 3 { AnimalsNatureDisjoint(); }
    else if p == 0 && q == 4 { AnimalsPeopleDisjoint(); }
    else if p == 0 && q == 5 { AnimalsActivitiesDisjoint(); }
    else if p == 1 && q == 2 { FoodObjectsDisjoint(); }
    else if p == 1 && q == 3 { FoodNatureDisjoint(); }
    else if p == 1 && q == 4 { FoodPeopleDisjoint(); }
    else if p == 1 && q == 5 { FoodActivitiesDisjoint(); }
    else if p == 2 && q == 3 { ObjectsNatureDisjoint(); }
    else if p == 2 && q == 4 { ObjectsPeopleDisjoint(); }
    else if p == 2 && q == 5 { ObjectsActivitiesDisjoint(); }
    else if p == 3 && q == 4 { NaturePeopleDisjoint(); }
    else if p == 3 && q == 5 { NatureActivitiesDisjoint(); }
    else if p == 4 && q == 5 { PeopleActivitiesDisjoint(); }
  }

  /** A word listed under two categories is listed under one: the two are the same. */
  lemma OneCategoryPerWord(k: nat, i: nat, w: string)
    requires k < |Catalog| && i < |Catalog|
    requires w in Catalog[k].words && w in Catalog[i].words
    ensures k == i
  {
    var a := IndexOf(Catalog[k].words, w);
    var b := IndexOf(Catalog[i].words, w);
    if k < i {
      CategoriesDisjoint(k, i);
    } else if i < k {
      CategoriesDisjoint(i, k);
    }
  }

  /** A catalog word belongs to exactly one category: the search finds the one that lists it. */
  lemma FindCategoryUnique(i: nat, w: string)
    requires i < |Catalog| && w in Catalog[i].words
    ensures FindCategory(Catalog, w) == Some(i)
  {
    var k := FindCategory(Catalog, w).value;
    OneCategoryPerWord(k, i, w);
  }

  function IndexOf(s: seq<string>, w: string): (k: nat)
    requires w in s
    ensures k < |s| && s[k] == w
  {
    if s[0] == w then 0 else 1 + IndexOf(s[1..], w)
  }
}
