/** The interactive prompts of the two credential-capture commands, with the
    prompt library (Inquirer) as an oracle: the model records which prompts
    were put to the user and takes the answers the library reports, one
    per text prompt and one for the yes/no prompt, defaults already
    applied.
 */
module Prompts {
  import opened Wrappers
  import opened Text

  /** What a prompt's `validate` returns: `false`, a message, or `true`. */
  datatype Verdict = Refuse | Explain(message: string) | Accept

  /** The check a text prompt runs on its input. */
  datatype Check =
    | NonEmpty
    | PublicKey
    | ExistingPath(message: string)   // `existsSync`, with the message shown otherwise

  datatype Default = NoDefault | DefaultText(text: string) | DefaultYes

  datatype Kind = Input(check: Check) | Confirm

  datatype Prompt = Prompt(name: string, message: string, kind: Kind, default: Default)

  /** The answers: text answers in the order asked, then the confirmation. A
      text prompt with no answer in the list is answered `undefined`. */
  datatype Answers = Answers(texts: seq<string>, confirm: bool)

  function At(texts: seq<string>, i: nat): string {
    if i < |texts| then texts[i] else ""
  }

  const InvalidPublicKey := "Expected valid public key"

  /** `/^0[2-3][0-9A-F]{64}$/i`, which only a non-empty string can match. */
  predicate IsPublicKey(n: string) {
    && |n| == 66 && n[0] == '0' && (n[1] == '2' || n[1] == '3')
    && forall i :: 2 <= i < 66 ==> IsHexDigit(n[i])
  }

  predicate AllHex(s: string) {
    forall i :: 0 <= i < |s| ==> IsHexDigit(s[i])
  }

  /** A public key is a compressed point: `02` or `03` followed by 64 hex digits. */
  lemma {:induction false} PublicKeyForm(n: string)
    ensures IsPublicKey(n) <==> exists x :: |x| == 64 && AllHex(x) && (n == "02" + x || n == "03" + x)
  {
    if IsPublicKey(n) {
      var x := n[2..];
      assert n == n[..2] + x;
      assert n[..2] == "02" || n[..2] == "03";
      assert forall i :: 0 <= i < |x| ==> x[i] == n[i + 2];
    }
    if exists x :: |x| == 64 && AllHex(x) && (n == "02" + x || n == "03" + x) {
      var x :| |x| == 64 && AllHex(x) && (n == "02" + x || n == "03" + x);
      assert forall i :: 2 <= i < 66 ==> n[i] == x[i - 2];
    }
  }

  /** The match ignores case. */
  lemma {:induction false} PublicKeyIgnoresCase(n: string)
    ensures IsPublicKey(n) <==> IsPublicKey(LowerAscii(n))
  {
    var l := LowerAscii(n);
    if |n| == 66 {
      assert l[0] == '0' <==> n[0] == '0';
      assert (l[1] == '2' || l[1] == '3') <==> (n[1] == '2' || n[1] == '3');
      assert forall i :: 2 <= i < 66 ==> (IsHexDigit(l[i]) <==> IsHexDigit(n[i]));
    }
  }

  /** What the prompt's `validate` says of `input`; `exists_` stands for
      `existsSync`. */
  function Judge(check: Check, exists_: bool, input: string): (r: Verdict)
    ensures r == Refuse <==> input == ""
    ensures check == NonEmpty ==> r != Explain(InvalidPublicKey) && (r == Accept <==> input != "")
    ensures check == PublicKey ==> (r == Accept <==> IsPublicKey(input))
    ensures check == PublicKey && r.Explain? ==> r.message == InvalidPublicKey
    ensures check.ExistingPath? ==> (r == Accept <==> input != "" && exists_)
    ensures check.ExistingPath? && r.Explain? ==> r.message == check.message
  {
    if input == "" then Refuse
    else
      match check
      case NonEmpty => Accept
      case PublicKey => if IsPublicKey(input) then Accept else Explain(InvalidPublicKey)
      case ExistingPath(message) => if exists_ then Accept else Explain(message)
  }

  /** The text prompts put to the user and what came of them. */
  datatype Asked = Asked(asked: seq<Prompt>, answers: Result<seq<string>>)

  /** The answers to the first `n` text prompts, `undefined` read as empty. */
  function Padded(texts: seq<string>, n: nat): (r: seq<string>)
    ensures |r| == n && forall i :: 0 <= i < n ==> r[i] == At(texts, i)
  {
    seq(n, i requires 0 <= i < n => At(texts, i))
  }

  /** Where the first empty answer is, if there is one. */
  function FirstEmpty(answers: seq<string>): (r: Option<nat>)
    ensures r.None? <==> forall i :: 0 <= i < |answers| ==> answers[i] != ""
    ensures r.Some? ==> (r.value < |answers| && answers[r.value] == ""
      && forall j :: 0 <= j < r.value ==> answers[j] != "")
  {
    if |answers| == 0 then None
    else if answers[0] == "" then Some(0)
    else
      match FirstEmpty(answers[1..])
      case Some(k) => Some(k + 1)
      case None => None
  }

  /** Put `prompts` to the user one after another; the first empty answer
      stops the sequence with that prompt's error. */
  function Collect(prompts: seq<Prompt>, missing: seq<string>, answers: seq<string>): (r: Asked)
    requires |prompts| == |missing| == |answers|
    ensures r.answers.Ok? <==> FirstEmpty(answers).None?
    ensures r.answers.Ok? ==> r.asked == prompts && r.answers.value == answers
    ensures FirstEmpty(answers).Some? ==>
      var k := FirstEmpty(answers).value;
      r.asked == prompts[..k + 1] && r.answers == Err(BadRequest(missing[k]))
  {
    if |prompts| == 0 then Asked([], Ok([]))
    else if answers[0] == "" then Asked([prompts[0]], Err(BadRequest(missing[0])))
    else
      var rest := Collect(prompts[1..], missing[1..], answers[1..]);
      var asked := [prompts[0]] + rest.asked;
      assert rest.answers.Err? ==> asked == prompts[..|rest.asked| + 1] by {
        if rest.answers.Err? {
          assert rest.asked == prompts[1..][..|rest.asked|];
        }
      }
      Asked(asked, match rest.answers
        case Ok(values) => Ok([answers[0]] + values)
        case Err(e) => Err(e))
  }

  /** `Collect` on the answers as the library reports them: the first
      prompt left without an answer stops the sequence. */
  function CollectTexts(prompts: seq<Prompt>, missing: seq<string>, texts: seq<string>): (r: Asked)
    requires |prompts| == |missing|
    ensures r.answers.Ok? <==> forall i :: 0 <= i < |prompts| ==> At(texts, i) != ""
    ensures r.answers.Ok? ==> (r.asked == prompts && |r.answers.value| == |prompts|
      && forall i :: 0 <= i < |prompts| ==> r.answers.value[i] == At(texts, i))
    ensures r.answers.Err? ==>
      var k := |r.asked| - 1;
      && 0 <= k < |prompts| && r.asked == prompts[..k + 1]
      && At(texts, k) == "" && r.answers.error == BadRequest(missing[k])
      && forall i :: 0 <= i < k ==> At(texts, i) != ""
  {
    Collect(prompts, missing, Padded(texts, |prompts|))
  }
}
