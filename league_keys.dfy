/** The tab label to league key normalisation used when a tab is selected
    and when a prediction is saved: lower-case the label, then replace each
    space with an underscore. Lower-casing is modelled on ASCII letters only. */
module LeagueKeys {

  predicate IsUpper(c: char) { 'A' <= c <= 'Z' }

  /** The lower-case form of an ASCII letter; every other character is kept. */
  function LowerChar(c: char): (r: char)
    ensures !IsUpper(r)
    ensures IsUpper(c) ==> r as int == c as int + 32
    ensures !IsUpper(c) ==> r == c
  {
    if IsUpper(c) then (c as int + 32) as char else c
  }

  /** `s.lower()`, one character at a time. */
  function Lower(s: string): string
  {
    if s == [] then [] else [LowerChar(s[0])] + Lower(s[1..])
  }

  /** `s.replace(" ", "_")`. */
  function ReplaceSpaces(s: string): string
  {
    if s == [] then [] else [if s[0] == ' ' then '_' else s[0]] + ReplaceSpaces(s[1..])
  }

  /** `tabText.lower().replace(" ", "_")`. */
  function LeagueKey(tabText: string): string
  {
    ReplaceSpaces(Lower(tabText))
  }

  /** The normalised character that stands at each position of the key. */
  function KeyChar(c: char): char
  {
    if c == ' ' then '_' else LowerChar(c)
  }

  lemma {:induction false} LowerAt(s: string)
    ensures |Lower(s)| == |s|
    ensures forall i :: 0 <= i < |s| ==> Lower(s)[i] == LowerChar(s[i])
  {
    if s != [] {
      LowerAt(s[1..]);
    }
  }

  lemma {:induction false} ReplaceSpacesAt(s: string)
    ensures |ReplaceSpaces(s)| == |s|
    ensures forall i :: 0 <= i < |s| ==> ReplaceSpaces(s)[i] == if s[i] == ' ' then '_' else s[i]
  {
    if s != [] {
      ReplaceSpacesAt(s[1..]);
    }
  }

  /** The key has one character per label character: a space becomes `_`,
      an upper-case ASCII letter its lower-case form, anything else itself. */
  lemma LeagueKeyAt(tabText: string)
    ensures |LeagueKey(tabText)| == |tabText|
    ensures forall i :: 0 <= i < |tabText| ==> LeagueKey(tabText)[i] == KeyChar(tabText[i])
  {
    LowerAt(tabText);
    ReplaceSpacesAt(Lower(tabText));
  }

  /** A key holds neither spaces nor upper-case ASCII letters. */
  lemma LeagueKeyIsNormal(tabText: string)
    ensures forall i :: 0 <= i < |LeagueKey(tabText)| ==>
              LeagueKey(tabText)[i] != ' ' && !IsUpper(LeagueKey(tabText)[i])
  {
    LeagueKeyAt(tabText);
  }

  /** Normalising a key again changes nothing. */
  lemma LeagueKeyIdempotent(tabText: string)
    ensures LeagueKey(LeagueKey(tabText)) == LeagueKey(tabText)
  {
    var k := LeagueKey(tabText);
    LeagueKeyAt(tabText);
    LeagueKeyAt(k);
  }

  /** The labels of the three tabs, in tab order. */
  const TabLabels: seq<string> := ["Championship", "League One", "League Two"]

  /** A key is checked against a candidate character by character. */
  lemma LeagueKeyIs(tabText: string, key: string)
    requires |key| == |tabText|
    requires forall i :: 0 <= i < |tabText| ==> key[i] == KeyChar(tabText[i])
    ensures LeagueKey(tabText) == key
  {
    LeagueKeyAt(tabText);
  }

  /** The three tabs give the keys under which the teams and predictions of
      each league are stored. */
  lemma ChampionshipKey()
    ensures LeagueKey(TabLabels[0]) == "championship"
  {
    LeagueKeyIs(TabLabels[0], "championship");
  }

  lemma LeagueOneKey()
    ensures LeagueKey(TabLabels[1]) == "league_one"
  {
    LeagueKeyIs(TabLabels[1], "league_one");
  }

  lemma LeagueTwoKey()
    ensures LeagueKey(TabLabels[2]) == "league_two"
  {
    LeagueKeyIs(TabLabels[2], "league_two");
  }

  /** Every tab has its own key, so no two tabs share a stored prediction. */
  lemma ChampionshipLeagueOneDistinct()
    ensures LeagueKey(TabLabels[0]) != LeagueKey(TabLabels[1])
  {
    ChampionshipKey();
    LeagueOneKey();
    assert "championship"[0] != "league_one"[0];
  }

  lemma ChampionshipLeagueTwoDistinct()
    ensures LeagueKey(TabLabels[0]) != LeagueKey(TabLabels[2])
  {
    ChampionshipKey();
    LeagueTwoKey();
    assert "championship"[0] != "league_two"[0];
  }

  lemma LeagueOneLeagueTwoDistinct()
    ensures LeagueKey(TabLabels[1]) != LeagueKey(TabLabels[2])
  {
    LeagueKeyAt(TabLabels[1]);
    LeagueKeyAt(TabLabels[2]);
    assert TabLabels[1][7] == 'O' && TabLabels[2][7] == 'T';
    assert LeagueKey(TabLabels[1])[7] != LeagueKey(TabLabels[2])[7];
  }
}
