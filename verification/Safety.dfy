/** The checks on a text about to be stored that describe an attack. */
module Safety {
  import opened Text

  const STANDING_ORDERS: seq<string> := [
    "always ", "from now on", "going forward", "in future", "in the future", "you must", "you should", "you will"]

  const REMINDERS: seq<string> := [
    "don't ", "remember to", "make sure to", "be sure to", "without asking", "no need to ask"]

  const WAIVERS: seq<string> := [
    "skip the", "bypass", "auto-approve", "automatically approve"]

  const PROMPT_TALK: seq<string> := ["system prompt", "your instructions"]

  const COMMANDS: seq<string> := [
    "never ", "do not ", "ignore ", "disregard", "treat this as", "override", "approve "]

  const INSTRUCTION_MARKERS: seq<string> := STANDING_ORDERS + REMINDERS + WAIVERS + PROMPT_TALK + COMMANDS

  const KEY_WORDS: seq<string> := ["api key", "api_key", "apikey", "password", "passwd", "private key"]

  const KEY_SIGNS: seq<string> := ["access token", "-----begin", "ssh-rsa"]

  const PLAIN_SECRETS: seq<string> := ["secret", "credential", "bearer ", "connection string"]

  const SECRET_MARKERS: seq<string> := KEY_WORDS + KEY_SIGNS + PLAIN_SECRETS

  const PREFERENCE_CONTROL_MARKERS: seq<string> := [
    "approv", "create_risk", "tool", "skip", "check", "cite", "citation", "source", "evidence", "verify", "confirm",
    "permission", "scope"]

  const SECRET_RUN := 20

  /** The text that markers are looked for in. */
  function Lowered(text: string): string { " " + Collapse(Lower(text)) + " " }

  predicate Carries(text: string, markers: seq<string>) {
    exists k :: 0 <= k < |markers| && Occurs(markers[k], Lowered(text))
  }

  predicate Digit(c: char) { '0' <= c <= '9' }

  predicate Letter(c: char) { 'a' <= c <= 'z' || 'A' <= c <= 'Z' }

  predicate KeyChar(c: char) { Digit(c) || Letter(c) || c == '_' || c == '-' }

  /** A long mixed run of letters and digits starting at i, the shape of a key: a digit
      after letters alone, and a letter after digits and dashes alone. */
  predicate SecretAt(text: string, i: nat) {
    && i + SECRET_RUN <= |text|
    && (forall j :: i <= j < i + SECRET_RUN ==> KeyChar(text[j]))
    && (exists d :: i <= d < |text| && Digit(text[d]) && forall j :: i <= j < d ==> Letter(text[j]))
    && (exists l :: i <= l < |text| && Letter(text[l]) && forall j :: i <= j < l ==> KeyChar(text[j]) && !Letter(text[j]))
  }

  predicate HasSecretShape(text: string) {
    exists i: nat :: i <= |text| && SecretAt(text, i)
  }

  datatype Attack = Harmless | InstructionLike | Sensitive

  function UnsafeToStore(text: string, preference: bool): Attack {
    if Carries(text, INSTRUCTION_MARKERS) then InstructionLike
    else if preference && Carries(text, PREFERENCE_CONTROL_MARKERS) then InstructionLike
    else if Carries(text, SECRET_MARKERS) then Sensitive
    else if HasSecretShape(text) then Sensitive
    else Harmless
  }

  predicate Safe(text: string) { UnsafeToStore(text, false) == Harmless }

  // -- the same checks without the trimming -------------------------------------------------

  /** What Lowered is for a text with a word in it: the squeezed text between spaces. */
  function Padded(text: string): string { Squeeze(" " + Lower(text) + " ") }

  predicate Free(segment: string, markers: seq<string>) {
    forall k :: 0 <= k < |markers| ==> !Occurs(markers[k], segment)
  }

  lemma {:induction false} SqueezeFront(text: string)
    requires text != ""
    ensures Squeeze(" " + text) == if IsSpace(text[0]) then Squeeze(text) else " " + Squeeze(text)
    decreases |text|
  {
    var shorter, c := text[..|text| - 1], text[|text| - 1];
    assert " " + text == (" " + shorter) + [c];
    SqueezePush(" " + shorter, c);
    if shorter == "" {
      assert " " + shorter == " ";
    } else {
      SqueezeFront(shorter);
      assert text == shorter + [c];
      SqueezePush(shorter, c);
    }
  }

  /** A space at either end, unless there is one. */
  function Spaced(text: string): string
    requires text != ""
  {
    var front := if text[0] == ' ' then text else " " + text;
    if text[|text| - 1] == ' ' then front else front + " "
  }

  lemma StripOfSqueezed(text: string)
    requires Squeezed(text) && !Blank(text)
    ensures " " + Strip(text) + " " == Spaced(text)
  {
    var left := if text[0] == ' ' then text[1..] else text;
    assert |text| > 1 || text[0] != ' ';
    if text[0] == ' ' {
      assert !(text[0] == ' ' && text[0 + 1] == ' ');
      assert LStrip(text) == LStrip(left) == left;
    }
    var n := |left|;
    if left[n - 1] == ' ' {
      assert n > 1;
      assert left[n - 2] != ' ' by {
        var k := |text| - 2;
        var last, before := text[k + 1], text[k];
        assert before != ' ';
      }
      assert RStrip(left) == RStrip(left[..n - 1]) == left[..n - 1];
    }
  }

  lemma SqueezedKeepsWords(text: string)
    requires !Blank(text)
    ensures !Blank(Squeeze(text))
  {
    var k: nat :| k < |text| && !IsSpace(text[k]);
    SqueezeAround(text[..k], text[k], text[k + 1..]);
    assert text == text[..k] + [text[k]] + text[k + 1..];
    assert Squeeze(text)[|Squeeze(text[..k])|] == text[k];
  }

  lemma LoweredIsPadded(text: string)
    requires !Blank(text)
    ensures Lowered(text) == Padded(text)
  {
    var low := Lower(text);
    assert low != "" && !Blank(low) by {
      var k: nat :| k < |text| && !IsSpace(text[k]);
      assert !IsSpace(low[k]);
    }
    SqueezeSqueezes(low);
    SqueezedKeepsWords(low);
    StripOfSqueezed(Squeeze(low));
    PaddedEnds(low);
  }

  lemma PaddedBack(text: string)
    requires text != ""
    ensures Squeeze(text + " ") == if IsSpace(text[|text| - 1]) then Squeeze(text) else Squeeze(text) + " "
  {
    SqueezePush(text, ' ');
  }

  lemma PaddedEnds(text: string)
    requires text != ""
    ensures Squeeze(text) != "" && Squeeze(" " + text + " ") == Spaced(Squeeze(text))
  {
    SqueezeFront(text);
    SpaceEnds(text);
    var front := " " + text;
    assert front[|front| - 1] == text[|text| - 1];
    PaddedBack(front);
    assert front + " " == " " + text + " ";
  }

  lemma SpaceEnds(text: string)
    requires text != ""
    ensures Squeeze(text) != ""
    ensures IsSpace(text[0]) <==> Squeeze(text)[0] == ' '
    ensures IsSpace(text[|text| - 1]) <==> Squeeze(text)[|Squeeze(text)| - 1] == ' '
  {
    SqueezeEnds(text);
  }

  // -- texts put together from segments -------------------------------------------------------

  predicate Separates(c: char) { c == ':' || c == ';' || c == '.' }

  /** A segment that holds no marker and no key, as it stands. */
  predicate Tame(text: string) {
    && Free(Squeeze(Lower(text)), INSTRUCTION_MARKERS)
    && Free(Squeeze(Lower(text)), SECRET_MARKERS)
    && !HasSecretShape(text)
  }

  predicate Plain(marker: string) { ':' !in marker && ';' !in marker && '.' !in marker }

  predicate AllPlain(markers: seq<string>) {
    forall k :: 0 <= k < |markers| ==> Plain(markers[k])
  }

  lemma StandingOrdersArePlain() ensures AllPlain(STANDING_ORDERS) {}

  lemma RemindersArePlain() ensures AllPlain(REMINDERS) {}

  lemma WaiversArePlain() ensures AllPlain(WAIVERS) {}

  lemma CommandsArePlain() ensures AllPlain(COMMANDS) {}

  lemma PromptTalkIsPlain() ensures AllPlain(PROMPT_TALK) {}

  lemma KeysArePlain() ensures AllPlain(KEY_WORDS) {}

  lemma SignsArePlain() ensures AllPlain(KEY_SIGNS) && AllPlain(PLAIN_SECRETS) {}

  lemma MarkersArePlain()
    ensures AllPlain(INSTRUCTION_MARKERS) && AllPlain(SECRET_MARKERS)
  {
    StandingOrdersArePlain();
    RemindersArePlain();
    WaiversArePlain();
    PromptTalkIsPlain();
    CommandsArePlain();
    KeysArePlain();
    SignsArePlain();
  }

  lemma MarkerAvoids(marker: string, text: string, i: nat, at: nat)
    requires Plain(marker) && i <= at < i + |marker| && OccursAt(marker, text, i)
    ensures !Separates(text[at])
  {
    assert text[i..i + |marker|][at - i] == text[at];
  }

  lemma FreeAcross(left: string, c: char, right: string, markers: seq<string>)
    requires Free(left, markers) && Free(right, markers) && Separates(c) && AllPlain(markers)
    ensures Free(left + [c] + right, markers)
  {
    forall k | 0 <= k < |markers| ensures !Occurs(markers[k], left + [c] + right) {
      var m, whole := markers[k], left + [c] + right;
      if i: nat :| i <= |whole| && OccursAt(m, whole, i) {
        if i + |m| <= |left| {
          assert left[i..i + |m|] == whole[i..i + |m|];
          assert OccursAt(m, left, i);
          assert Occurs(m, left);
        } else if i > |left| {
          var j := i - |left| - 1;
          assert right[j..j + |m|] == whole[i..i + |m|];
          assert OccursAt(m, right, j);
          assert Occurs(m, right);
        } else {
          MarkerAvoids(m, whole, i, |left|);
        }
        assert false;
      }
    }
  }

  /** A key is still one wherever the same characters stand, up to where they end. */
  lemma SecretMoves(from: string, i: nat, to: string, j: nat, n: nat)
    requires SecretAt(from, i) && i + n <= |from| && j + n <= |to|
    requires i + n < |from| ==> !KeyChar(from[i + n])
    requires from[i..i + n] == to[j..j + n]
    ensures SecretAt(to, j)
  {
    assert n >= SECRET_RUN;
    var d :| i <= d < |from| && Digit(from[d]) && forall k :: i <= k < d ==> Letter(from[k]);
    var l :| i <= l < |from| && Letter(from[l]) && forall k :: i <= k < l ==> KeyChar(from[k]) && !Letter(from[k]);
    assert d - i < n && l - i < n;
    assert from[i..i + n][d - i] == to[j..j + n][d - i] && from[i..i + n][l - i] == to[j..j + n][l - i];
    assert Digit(to[j + (d - i)]) && Letter(to[j + (l - i)]);
    forall k | j <= k < j + SECRET_RUN ensures KeyChar(to[k]) {
      assert from[i..i + n][k - j] == to[j..j + n][k - j];
    }
    forall k | j <= k < j + (d - i) ensures Letter(to[k]) {
      assert from[i..i + n][k - j] == to[j..j + n][k - j];
    }
    forall k | j <= k < j + (l - i) ensures KeyChar(to[k]) && !Letter(to[k]) {
      assert from[i..i + n][k - j] == to[j..j + n][k - j];
    }
  }

  lemma NoSecretAcross(left: string, c: char, right: string)
    requires !HasSecretShape(left) && !HasSecretShape(right) && Separates(c)
    ensures !HasSecretShape(left + [c] + right)
  {
    var whole := left + [c] + right;
    if i: nat :| i <= |whole| && SecretAt(whole, i) {
      assert whole[|left|] == c && !KeyChar(c);
      assert i < |whole| && KeyChar(whole[i]);
      if i < |left| {
        SecretMoves(whole, i, left, i, |left| - i);
        assert HasSecretShape(left);
      } else {
        var j := i - |left| - 1;
        assert whole[i..] == right[j..];
        assert whole[i..i + (|whole| - i)] == whole[i..] && right[j..j + (|whole| - i)] == right[j..];
        SecretMoves(whole, i, right, j, |whole| - i);
        assert HasSecretShape(right);
      }
      assert false;
    }
  }

  /** Nothing unsafe forms where two segments meet at a separator. */
  lemma TameAcross(left: string, c: char, right: string)
    requires Tame(left) && Tame(right) && Separates(c)
    ensures Tame(left + [c] + right)
  {
    assert Lower(left + [c] + right) == Lower(left) + [c] + Lower(right);
    SqueezeAround(Lower(left), c, Lower(right));
    MarkersArePlain();
    FreeAcross(Squeeze(Lower(left)), c, Squeeze(Lower(right)), INSTRUCTION_MARKERS);
    FreeAcross(Squeeze(Lower(left)), c, Squeeze(Lower(right)), SECRET_MARKERS);
    NoSecretAcross(left, c, right);
  }

  lemma FreePrefix(text: string, n: nat, markers: seq<string>)
    requires n <= |text| && Free(text, markers)
    ensures Free(text[..n], markers)
  {
    forall k | 0 <= k < |markers| ensures !Occurs(markers[k], text[..n]) {
      if i: nat :| i <= n && OccursAt(markers[k], text[..n], i) {
        assert text[..n][i..i + |markers[k]|] == text[i..i + |markers[k]|];
        assert OccursAt(markers[k], text, i);
        assert Occurs(markers[k], text);
        assert false;
      }
    }
  }

  /** What a cut leaves is as harmless as the whole. */
  lemma TamePrefix(text: string, n: nat)
    requires n <= |text| && Tame(text)
    ensures Tame(text[..n])
  {
    assert Lower(text[..n]) == Lower(text)[..n];
    SqueezePrefix(Lower(text), n);
    FreePrefix(Squeeze(Lower(text)), |Squeeze(Lower(text)[..n])|, INSTRUCTION_MARKERS);
    FreePrefix(Squeeze(Lower(text)), |Squeeze(Lower(text)[..n])|, SECRET_MARKERS);
    NoSecretInPrefix(text, n);
  }

  lemma NoSecretInPrefix(text: string, n: nat)
    requires n <= |text| && !HasSecretShape(text)
    ensures !HasSecretShape(text[..n])
  {
    if i: nat :| i <= n && SecretAt(text[..n], i) {
      SecretMoves(text[..n], i, text, i, n - i);
      assert HasSecretShape(text);
      assert false;
    }
  }

  lemma CarriesNot(text: string, markers: seq<string>)
    requires !Carries(text, markers)
    ensures Free(Lowered(text), markers)
  {
  }

  lemma AfterSpace(item: string, i: nat)
    requires 1 <= i <= |item| + 1
    ensures (" " + item)[i..|item| + 1] == item[i - 1..|item|]
  {
    assert (" " + item)[1..] == item;
    assert (" " + item)[1..][i - 1..|item|] == (" " + item)[i..|item| + 1];
  }

  lemma NoSecretAfterSpace(item: string)
    requires !HasSecretShape(item)
    ensures !HasSecretShape(" " + item)
  {
    if i: nat :| i <= |item| + 1 && SecretAt(" " + item, i) {
      assert KeyChar((" " + item)[i]);
      AfterSpace(item, i);
      SecretMoves(" " + item, i, item, i - 1, |item| + 1 - i);
      assert HasSecretShape(item);
      assert false;
    }
  }

  lemma FreeAfterSpace(item: string, markers: seq<string>)
    requires !Carries(item, markers) && !Blank(item)
    ensures Free(Squeeze(Lower(" " + item)), markers)
  {
    LoweredIsPadded(item);
    CarriesNot(item, markers);
    var whole := " " + Lower(item) + " ";
    assert whole[..|item| + 1] == " " + Lower(item) == Lower(" " + item);
    SqueezePrefix(whole, |item| + 1);
    FreePrefix(Squeeze(whole), |Squeeze(Lower(" " + item))|, markers);
  }

  /** An item that may be stored is harmless after the space in front of it. */
  lemma SafeItemIsTame(item: string)
    requires Safe(item) && !Blank(item)
    ensures Tame(" " + item)
  {
    FreeAfterSpace(item, INSTRUCTION_MARKERS);
    FreeAfterSpace(item, SECRET_MARKERS);
    NoSecretAfterSpace(item);
  }

  lemma InsideSpaces(text: string, i: nat)
    requires i <= |text|
    ensures text[i..] == (" " + text + " ")[i + 1..|text| + 1]
  {
    assert (" " + text + " ")[1..|text| + 1] == text;
    assert (" " + text + " ")[1..|text| + 1][i..] == (" " + text + " ")[i + 1..|text| + 1];
  }

  lemma NoSecretInside(text: string)
    requires !HasSecretShape(" " + text + " ")
    ensures !HasSecretShape(text)
  {
    if i: nat :| i <= |text| && SecretAt(text, i) {
      InsideSpaces(text, i);
      SecretMoves(text, i, " " + text + " ", i + 1, |text| - i);
      assert false;
    }
  }

  lemma FreeCarriesNone(text: string, markers: seq<string>)
    requires Free(Lowered(text), markers)
    ensures !Carries(text, markers)
  {
  }

  /** A text that is harmless between its spaces may be stored. */
  lemma TameIsSafe(text: string)
    requires Tame(" " + text + " ") && !Blank(text)
    ensures Safe(text)
  {
    LoweredIsPadded(text);
    assert Lower(" " + text + " ") == " " + Lower(text) + " ";
    FreeCarriesNone(text, INSTRUCTION_MARKERS);
    FreeCarriesNone(text, SECRET_MARKERS);
    NoSecretInside(text);
  }

  // -- labels ----------------------------------------------------------------------------------

  /** A letter that no section label has. */
  predicate Foreign(c: char) {
    c == 'f' || c == 'k' || c == 'm' || c == 'u' || c == 'w' || c == 'y' || c == '_' || c == '-' || c == '\''
  }

  /** A letter that neither "decided" nor "established" has. */
  predicate Undecided(c: char) { c == 'n' || c == 'o' || c == 'g' || c == 'r' || c == 'p' }

  /** A letter that "approvals raised" lacks. */
  predicate Unraised(c: char) { c == 'n' || c == 'g' || c == 't' || c == 'c' || c == 'b' }

  datatype Letters = Elsewhere | Beyond | Outside

  predicate In(c: char, letters: Letters) {
    match letters
    case Elsewhere => Foreign(c)
    case Beyond => Undecided(c)
    case Outside => Unraised(c)
  }

  /** Each marker has one of the letters, at the place given. */
  predicate Bears(markers: seq<string>, at: seq<nat>, letters: Letters) {
    |at| == |markers| && forall k :: 0 <= k < |markers| ==> at[k] < |markers[k]| && In(markers[k][at[k]], letters)
  }

  predicate Lacks(text: string, letters: Letters) {
    forall i :: 0 <= i < |text| ==> !In(text[i], letters)
  }

  lemma BearersAreFree(text: string, markers: seq<string>, at: seq<nat>, letters: Letters)
    requires Bears(markers, at, letters) && Lacks(text, letters)
    ensures Free(text, markers)
  {
    forall k | 0 <= k < |markers| ensures !Occurs(markers[k], text) {
      var m := markers[k];
      if i: nat :| i <= |text| && OccursAt(m, text, i) {
        OccursThere(m, text, i, at[k]);
        assert false;
      }
    }
  }

  lemma StandingOrdersAreForeign() ensures Bears(STANDING_ORDERS, [2, 0, 6, 3, 7, 2, 2, 2], Elsewhere) {}

  lemma RemindersAreForeign() ensures Bears(REMINDERS, [3, 2, 0, 4, 0, 13], Elsewhere) {}

  lemma WaiversAreForeign() ensures Bears(WAIVERS, [1, 1, 1, 1], Elsewhere) {}

  lemma PromptTalkIsForeign() ensures Bears(PROMPT_TALK, [1, 2], Elsewhere) {}

  lemma KeysAreForeign() ensures Bears(KEY_WORDS, [4, 3, 3, 4, 4, 8], Elsewhere) {}

  lemma SignsAreForeign() ensures Bears(KEY_SIGNS, [9, 0, 3], Elsewhere) {}

  lemma CommandsAreUndecided() ensures Bears(COMMANDS, [0, 1, 1, 3, 1, 0, 1], Beyond) {}

  lemma SecretsAreUndecided() ensures Bears(PLAIN_SECRETS, [3, 1, 3, 1], Beyond) {}

  lemma CommandsAreUnraised() ensures Bears(COMMANDS[..5], [0, 3, 1, 5, 0], Outside) {}

  lemma SecretsAreUnraised() ensures Bears(PLAIN_SECRETS, [2, 0, 0, 0], Outside) {}

  /** None of the markers that are made of the commonest letters occurs. */
  predicate Uncommon(text: string) {
    Free(text, COMMANDS) && Free(text, PLAIN_SECRETS)
  }

  lemma FreeOver(text: string, some: seq<string>, more: seq<string>)
    requires Free(text, some) && Free(text, more)
    ensures Free(text, some + more)
  {
  }

  /** Nothing but the commonest markers could occur in a label. */
  lemma ForeignToLabels(text: string)
    requires Lacks(text, Elsewhere) && Uncommon(text)
    ensures Free(text, INSTRUCTION_MARKERS) && Free(text, SECRET_MARKERS)
  {
    StandingOrdersAreForeign();
    BearersAreFree(text, STANDING_ORDERS, [2, 0, 6, 3, 7, 2, 2, 2], Elsewhere);
    RemindersAreForeign();
    BearersAreFree(text, REMINDERS, [3, 2, 0, 4, 0, 13], Elsewhere);
    WaiversAreForeign();
    BearersAreFree(text, WAIVERS, [1, 1, 1, 1], Elsewhere);
    PromptTalkIsForeign();
    BearersAreFree(text, PROMPT_TALK, [1, 2], Elsewhere);
    KeysAreForeign();
    BearersAreFree(text, KEY_WORDS, [4, 3, 3, 4, 4, 8], Elsewhere);
    SignsAreForeign();
    BearersAreFree(text, KEY_SIGNS, [9, 0, 3], Elsewhere);
    FreeOver(text, STANDING_ORDERS, REMINDERS);
    FreeOver(text, STANDING_ORDERS + REMINDERS, WAIVERS);
    FreeOver(text, STANDING_ORDERS + REMINDERS + WAIVERS, PROMPT_TALK);
    FreeOver(text, STANDING_ORDERS + REMINDERS + WAIVERS + PROMPT_TALK, COMMANDS);
    FreeOver(text, KEY_WORDS, KEY_SIGNS);
    FreeOver(text, KEY_WORDS + KEY_SIGNS, PLAIN_SECRETS);
  }

  /** No marker is as short as five letters. */
  lemma ShortIsFree(text: string)
    requires |text| <= 5
    ensures Uncommon(text)
  {
  }

  lemma UndecidedIsFree(text: string)
    requires Lacks(text, Beyond)
    ensures Uncommon(text)
  {
    CommandsAreUndecided();
    BearersAreFree(text, COMMANDS, [0, 1, 1, 3, 1, 0, 1], Beyond);
    SecretsAreUndecided();
    BearersAreFree(text, PLAIN_SECRETS, [3, 1, 3, 1], Beyond);
  }

  lemma ApprovalsAreFree()
    ensures Uncommon(" approvals raised")
  {
    var text := " approvals raised";
    CommandsAreUnraised();
    BearersAreFree(text, COMMANDS[..5], [0, 3, 1, 5, 0], Outside);
    SecretsAreUnraised();
    BearersAreFree(text, PLAIN_SECRETS, [2, 0, 0, 0], Outside);
    forall i: nat | i <= |text| ensures !OccursAt("override", text, i) {
      if OccursAt("override", text, i) {
        OccursThere("override", text, i, 0);
        OccursThere("override", text, i, 2);
      }
    }
    forall i: nat | i <= |text| ensures !OccursAt("approve ", text, i) {
      if OccursAt("approve ", text, i) {
        OccursThere("approve ", text, i, 0);
        OccursThere("approve ", text, i, 1);
        OccursThere("approve ", text, i, 6);
      }
    }
    assert COMMANDS == COMMANDS[..5] + ["override", "approve "];
  }
}
