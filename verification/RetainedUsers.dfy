/**
 * What a compaction keeps of the user's own words: the newest messages that fit
 * a byte budget, cut only between characters.
 */
module RetainedUsers {
  import opened Types
  import opened Utf8

  /** A request item: a user message, as the text it displays without images, or anything else. */
  datatype Item = User(text: Bytes) | Other

  const BYTES_PER_TOKEN: nat := 4

  function ByteBudget(tokens: nat): (r: nat) {
    if tokens * BYTES_PER_TOKEN <= USIZE_MAX then tokens * BYTES_PER_TOKEN else USIZE_MAX
  }

  /** The user messages in the order of the request. */
  function UserTexts(items: seq<Item>): (r: seq<Bytes>)
    decreases |items|
  {
    if items == [] then [] else (if items[0].User? then [items[0].text] else []) + UserTexts(items[1..])
  }

  /** The user messages, newest first. */
  function NewestUsers(items: seq<Item>): (r: seq<Bytes>)
    decreases |items|
  {
    if items == [] then [] else
    var last := items[|items| - 1];
    (if last.User? then [last.text] else []) + NewestUsers(items[..|items| - 1])
  }

  /** The longest beginning of `text` within the limit. */
  function Clipped(text: Bytes, limit: nat): (r: Bytes)
    ensures |r| <= limit
  {
    text[..FloorBoundary(text, limit)]
  }

  /** What fits, message by message; the first that does not fit at all ends the list. */
  function Keep(users: seq<Bytes>, remaining: nat): (r: seq<Bytes>)
    decreases |users|
  {
    if users == [] || remaining == 0 then [] else
    var kept := Clipped(users[0], remaining);
    if kept == [] && users[0] != [] then [] else [kept] + Keep(users[1..], remaining - |kept|)
  }

  function Reversed<T>(s: seq<T>): (r: seq<T>)
    decreases |s|
  {
    if s == [] then [] else Reversed(s[1..]) + [s[0]]
  }

  lemma {:induction false} ReversedConcat<T>(a: seq<T>, b: seq<T>)
    ensures Reversed(a + b) == Reversed(b) + Reversed(a)
    decreases |a|
  {
    if a == [] {
      assert a + b == b;
    } else {
      assert (a + b)[1..] == a[1..] + b;
      ReversedConcat(a[1..], b);
    }
  }

  /** The same, over the first `n` items themselves, going back from the last. */
  function KeepFrom(items: seq<Item>, n: nat, remaining: nat): (r: seq<Bytes>)
    requires n <= |items|
  {
    if n == 0 then [] else
    match items[n - 1]
    case Other => KeepFrom(items, n - 1, remaining)
    case User(text) =>
      if remaining == 0 then [] else
      var kept := Clipped(text, remaining);
      if kept == [] && text != [] then [] else [kept] + KeepFrom(items, n - 1, remaining - |kept|)
  }

  lemma {:induction false} KeepFromUsers(items: seq<Item>, n: nat, remaining: nat)
    requires n <= |items|
    ensures KeepFrom(items, n, remaining) == Keep(NewestUsers(items[..n]), remaining)
    decreases n
  {
    if n > 0 {
      assert items[..n][..n - 1] == items[..n - 1];
      var older, newer := NewestUsers(items[..n - 1]), NewestUsers(items[..n]);
      if items[n - 1] == Other {
        assert newer == older;
        KeepFromUsers(items, n - 1, remaining);
      } else {
        assert newer == [items[n - 1].text] + older && newer[1..] == older;
        KeepFromUsers(items, n - 1, remaining - |Clipped(items[n - 1].text, remaining)|);
      }
    }
  }

  /** Shortens to the budget, then byte by byte to the nearest character boundary. */
  method Clip(text: Bytes, remaining: nat) returns (kept: Bytes)
    ensures kept == Clipped(text, remaining)
  {
    var end: nat := if |text| < remaining then |text| else remaining;
    while !Boundary(text, end)
      invariant end <= remaining && end <= |text|
      invariant FloorBoundary(text, end) == FloorBoundary(text, remaining)
      decreases end
    {
      end := end - 1;
    }
    kept := text[..end];
  }

  /** The loop over the items, last first. */
  method TakeNewest(items: seq<Item>, budget: nat) returns (newestFirst: seq<Bytes>)
    ensures newestFirst == KeepFrom(items, |items|, budget)
  {
    newestFirst := [];
    var remaining: nat := budget;
    var i := |items|;
    while i > 0
      invariant 0 <= i <= |items|
      invariant KeepFrom(items, |items|, budget) == newestFirst + KeepFrom(items, i, remaining)
    {
      i := i - 1;
      if items[i] == Other {
        continue;
      }
      if remaining == 0 {
        break;
      }
      var text := items[i].text;
      var kept := Clip(text, remaining);
      if kept == [] && text != [] {
        break;
      }
      newestFirst, remaining := newestFirst + [kept], remaining - |kept|;
    }
  }

  lemma {:induction false} ReversedAt<T>(s: seq<T>)
    ensures |Reversed(s)| == |s| && forall i | 0 <= i < |s| :: Reversed(s)[i] == s[|s| - 1 - i]
    decreases |s|
  {
    if s != [] {
      ReversedAt(s[1..]);
    }
  }

  lemma {:induction false} UsersReversed(items: seq<Item>)
    ensures NewestUsers(items) == Reversed(UserTexts(items))
    decreases |items|
  {
    if items != [] {
      var front, last := items[..|items| - 1], items[|items| - 1];
      UsersReversed(front);
      UserTextsConcat(front, [last]);
      assert items == front + [last];
      assert UserTexts([last]) == (if last.User? then [last.text] else []) by {
        assert [last][1..] == [];
      }
      ReversedConcat(UserTexts(front), UserTexts([last]));
      assert last.User? ==> Reversed([last.text]) == [last.text];
    }
  }

  lemma {:induction false} UserTextsConcat(a: seq<Item>, b: seq<Item>)
    ensures UserTexts(a + b) == UserTexts(a) + UserTexts(b)
    decreases |a|
  {
    if a == [] {
      assert a + b == b;
    } else {
      assert (a + b)[1..] == a[1..] + b;
      UserTextsConcat(a[1..], b);
    }
  }

  /** One begins each of the last messages of the other, in the same order, and stops between characters. */
  ghost predicate BeginsLast(retained: seq<Bytes>, users: seq<Bytes>) {
    && |retained| <= |users|
    && forall i | 0 <= i < |retained| ::
         var user := users[|users| - |retained| + i];
         retained[i] <= user && Boundary(user, |retained[i]|)
  }

  /** A message was cut only when at most three bytes of the budget stay unused behind it. */
  ghost predicate CutsTight(retained: seq<Bytes>, users: seq<Bytes>, budget: nat) {
    && |retained| <= |users|
    && forall i | 0 <= i < |retained| && retained[i] != users[|users| - |retained| + i] ::
         budget - TotalLength(retained[i..]) <= 3
  }

  /** What is retained of the users' messages, both in the order of the request. */
  ghost predicate Retains(users: seq<Bytes>, budget: nat, retained: seq<Bytes>) {
    && BeginsLast(retained, users) && TotalLength(retained) <= budget
    && (Texts(users) && |retained| < |users| ==> budget - TotalLength(retained) <= 3)
    && (Texts(users) ==> CutsTight(retained, users, budget))
  }

  lemma {:induction false} TotalConcat(a: seq<Bytes>, b: seq<Bytes>)
    ensures TotalLength(a + b) == TotalLength(a) + TotalLength(b)
    decreases |a|
  {
    if a == [] {
      assert a + b == b;
    } else {
      assert (a + b)[1..] == a[1..] + b;
      TotalConcat(a[1..], b);
    }
  }

  lemma {:induction false} TotalReversed(s: seq<Bytes>)
    ensures TotalLength(Reversed(s)) == TotalLength(s)
    decreases |s|
  {
    if s != [] {
      TotalReversed(s[1..]);
      TotalConcat(Reversed(s[1..]), [s[0]]);
      TotalOfOne([s[0]]);
      assert [s[0]][..1] == [s[0]];
    }
  }

  lemma ReversedTail(s: seq<Bytes>, i: nat)
    requires i < |s|
    ensures |Reversed(s)| == |s| && Reversed(s)[i..] == Reversed(s[..|s| - i])
  {
    var n := |s| - i;
    ReversedAt(s);
    ReversedAt(s[..n]);
  }

  lemma ReversedTexts(users: seq<Bytes>)
    requires Texts(users)
    ensures Texts(Reversed(users))
  {
    ReversedAt(users);
  }

  lemma RetainedCut(users: seq<Bytes>, budget: nat, i: nat)
    requires Texts(users) && |Keep(Reversed(users), budget)| <= |Reversed(users)| == |users|
    requires var kept := Keep(Reversed(users), budget);
             i < |kept| && kept[|kept| - 1 - i] != users[|users| - |kept| + i]
    ensures
      var kept := Keep(Reversed(users), budget);
      |Reversed(kept)| == |kept| && budget - TotalLength(Reversed(kept)[i..]) <= 3
  {
    var kept := Keep(Reversed(users), budget);
    ReversedAt(users);
    ReversedTexts(users);
    CutsUseTheBudget(Reversed(users), budget, |kept| - 1 - i);
    ReversedTail(kept, i);
    TotalReversed(kept[..|kept| - i]);
  }

  ghost predicate Mirrors<T>(a: seq<T>, b: seq<T>) {
    |a| == |b| && forall i | 0 <= i < |a| :: a[i] == b[|b| - 1 - i]
  }

  lemma BeginsMirrored(kept: seq<Bytes>, newest: seq<Bytes>, retained: seq<Bytes>, users: seq<Bytes>)
    requires Begins(kept, newest) && Mirrors(retained, kept) && Mirrors(newest, users)
    ensures BeginsLast(retained, users)
  {
    forall i | 0 <= i < |retained|
      ensures retained[i] <= users[|users| - |retained| + i]
              && Boundary(users[|users| - |retained| + i], |retained[i]|)
    {
      var k := |kept| - 1 - i;
      assert kept[k] <= newest[k] && Boundary(newest[k], |kept[k]|) && newest[k] == users[|users| - 1 - k];
    }
  }

  lemma BeginsReversed(kept: seq<Bytes>, users: seq<Bytes>)
    requires |Reversed(users)| == |users| && Begins(kept, Reversed(users))
    ensures BeginsLast(Reversed(kept), users)
  {
    ReversedAt(users);
    ReversedAt(kept);
    BeginsMirrored(kept, Reversed(users), Reversed(kept), users);
  }

  lemma CutsReversed(users: seq<Bytes>, budget: nat)
    requires Texts(users) && |Keep(Reversed(users), budget)| <= |Reversed(users)| == |users|
    ensures CutsTight(Reversed(Keep(Reversed(users), budget)), users, budget)
  {
    var kept := Keep(Reversed(users), budget);
    var retained := Reversed(kept);
    ReversedAt(kept);
    forall i | 0 <= i < |retained| && retained[i] != users[|users| - |retained| + i]
      ensures budget - TotalLength(retained[i..]) <= 3
    {
      RetainedCut(users, budget, i);
    }
  }

  lemma StopsReversed(users: seq<Bytes>, budget: nat)
    requires Texts(users) && |Keep(Reversed(users), budget)| < |Reversed(users)| == |users|
    ensures budget - TotalLength(Reversed(Keep(Reversed(users), budget))) <= 3
  {
    ReversedTexts(users);
    StopsWhenFull(Reversed(users), budget);
    TotalReversed(Keep(Reversed(users), budget));
  }

  lemma ReversedLength<T>(s: seq<T>)
    ensures |Reversed(s)| == |s|
  {
    ReversedAt(s);
  }

  lemma KeepRetains(users: seq<Bytes>, budget: nat)
    ensures Retains(users, budget, Reversed(Keep(Reversed(users), budget)))
  {
    var kept := Keep(Reversed(users), budget);
    ReversedLength(users);
    ReversedLength(kept);
    KeptWithinBudget(Reversed(users), budget);
    BeginsReversed(kept, users);
    TotalReversed(kept);
    if Texts(users) {
      CutsReversed(users, budget);
      if |kept| < |users| {
        StopsReversed(users, budget);
      }
    }
  }

  lemma RetainedExactly(items: seq<Item>, tokens: nat)
    ensures Retains(UserTexts(items), if 4 * tokens <= USIZE_MAX then 4 * tokens else USIZE_MAX,
                    Reversed(Keep(NewestUsers(items), ByteBudget(tokens))))
  {
    UsersReversed(items);
    KeepRetains(UserTexts(items), ByteBudget(tokens));
  }

  /** `retained_users`, oldest first. */
  method RetainUsers(items: seq<Item>, tokens: nat) returns (retained: seq<Bytes>)
    ensures Retains(UserTexts(items), if 4 * tokens <= USIZE_MAX then 4 * tokens else USIZE_MAX, retained)
    ensures retained == Reversed(Keep(NewestUsers(items), ByteBudget(tokens)))
  {
    var newestFirst := TakeNewest(items, ByteBudget(tokens));
    KeepFromUsers(items, |items|, ByteBudget(tokens));
    assert items[..|items|] == items;
    retained := Reverse(newestFirst);
    RetainedExactly(items, tokens);
  }

  method Reverse<T>(s: seq<T>) returns (r: seq<T>)
    ensures r == Reversed(s)
  {
    r := [];
    for i := 0 to |s|
      invariant r == Reversed(s[..i])
    {
      assert s[..i + 1] == s[..i] + [s[i]];
      ReversedConcat(s[..i], [s[i]]);
      assert Reversed([s[i]]) == [s[i]];
      r := [s[i]] + r;
    }
    assert s[..|s|] == s;
  }

  /** The items' texts are UTF-8. */
  ghost predicate Texts(users: seq<Bytes>) {
    forall i | 0 <= i < |users| :: WellFormed(users[i])
  }

  function TotalLength(texts: seq<Bytes>): (n: nat)
    decreases |texts|
  {
    if texts == [] then 0 else |texts[0]| + TotalLength(texts[1..])
  }

  /** What the first message contributes, if it contributes at all. */
  lemma KeepFirst(users: seq<Bytes>, budget: nat)
    requires users != [] && budget > 0 && (Clipped(users[0], budget) != [] || users[0] == [])
    ensures |Clipped(users[0], budget)| <= budget && Clipped(users[0], budget) <= users[0]
    ensures
      var first, kept := Clipped(users[0], budget), Keep(users, budget);
      && kept != [] && kept[0] == first && kept[1..] == Keep(users[1..], budget - |first|)
      && TotalLength(kept) == |first| + TotalLength(kept[1..])
  {
  }

  ghost predicate Begins(kept: seq<Bytes>, users: seq<Bytes>) {
    && |kept| <= |users|
    && forall i | 0 <= i < |kept| :: kept[i] <= users[i] && Boundary(users[i], |kept[i]|)
  }

  lemma BeginsMore(kept: seq<Bytes>, users: seq<Bytes>)
    requires kept != [] && users != [] && kept[0] <= users[0] && Boundary(users[0], |kept[0]|)
    requires Begins(kept[1..], users[1..])
    ensures Begins(kept, users)
  {
    forall i | 0 < i < |kept|
      ensures kept[i] <= users[i] && Boundary(users[i], |kept[i]|)
    {
      assert kept[i] == kept[1..][i - 1] && users[i] == users[1..][i - 1];
    }
  }

  lemma {:induction false} KeptBegins(users: seq<Bytes>, budget: nat)
    ensures Begins(Keep(users, budget), users)
    decreases |users|
  {
    var kept := Keep(users, budget);
    if kept != [] {
      var first := Clipped(users[0], budget);
      KeepFirst(users, budget);
      KeptBegins(users[1..], budget - |first|);
      BeginsMore(kept, users);
    }
  }

  lemma {:induction false} KeptTotal(users: seq<Bytes>, budget: nat)
    ensures TotalLength(Keep(users, budget)) <= budget
    decreases |users|
  {
    var kept := Keep(users, budget);
    if kept != [] {
      KeepFirst(users, budget);
      KeptTotal(users[1..], budget - |Clipped(users[0], budget)|);
    }
  }

  /** The kept texts begin the newest messages, one each without a gap, and fit the budget. */
  lemma {:induction false} KeptWithinBudget(users: seq<Bytes>, budget: nat)
    ensures Begins(Keep(users, budget), users) && TotalLength(Keep(users, budget)) <= budget
  {
    KeptBegins(users, budget);
    KeptTotal(users, budget);
  }

  lemma ClippedTight(text: Bytes, limit: nat)
    requires WellFormed(text) && Clipped(text, limit) != text
    ensures limit - |Clipped(text, limit)| <= 3
  {
    assert text[..|text|] == text;
    FloorBoundaryTight(text, limit);
  }

  lemma TotalOfMore(kept: seq<Bytes>, k: nat)
    requires k < |kept| && 0 < k
    ensures TotalLength(kept[..k + 1]) == |kept[0]| + TotalLength(kept[1..][..k])
  {
    assert kept[..k + 1][1..] == kept[1..][..k];
  }

  /** Every kept text is UTF-8 again. */
  lemma KeptAreTexts(users: seq<Bytes>, budget: nat)
    requires Texts(users)
    ensures Texts(Keep(users, budget))
  {
    KeptWithinBudget(users, budget);
    var kept := Keep(users, budget);
    forall i | 0 <= i < |kept|
      ensures WellFormed(kept[i])
    {
      Cut(users[i], |kept[i]|);
      assert kept[i] == users[i][..|kept[i]|];
    }
  }

  /** A message is shortened only when at most three bytes of the budget stay unused behind it. */
  lemma {:induction false} CutsUseTheBudget(users: seq<Bytes>, budget: nat, k: nat)
    requires Texts(users) && k < |Keep(users, budget)| <= |users| && Keep(users, budget)[k] != users[k]
    ensures budget - TotalLength(Keep(users, budget)[..k + 1]) <= 3
    decreases |users|
  {
    KeepFirst(users, budget);
    var first, kept := Clipped(users[0], budget), Keep(users, budget);
    if k == 0 {
      ClippedTight(users[0], budget);
      TotalOfOne(kept);
    } else {
      CutsUseTheBudget(users[1..], budget - |first|, k - 1);
      TotalOfMore(kept, k);
    }
  }

  lemma TotalOfOne(kept: seq<Bytes>)
    requires kept != []
    ensures TotalLength(kept[..1]) == |kept[0]|
  {
    assert kept[..1][1..] == [];
  }

  /** A message is left out only when at most three bytes of the budget stay unused. */
  lemma {:induction false} StopsWhenFull(users: seq<Bytes>, budget: nat)
    requires Texts(users) && |Keep(users, budget)| < |users|
    ensures budget - TotalLength(Keep(users, budget)) <= 3
    decreases |users|
  {
    var kept := Keep(users, budget);
    if kept != [] {
      KeepFirst(users, budget);
      assert |kept[1..]| < |users[1..]|;
      StopsWhenFull(users[1..], budget - |Clipped(users[0], budget)|);
    } else if budget > 0 {
      ClippedTight(users[0], budget);
    }
  }
}
