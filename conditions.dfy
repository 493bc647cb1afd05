/**
 The medical-condition checkboxes of the IVF calculator form: the four
 condition keys, the boolean record holding one flag per key, the keyed
 update performed when a checkbox changes, and the checkbox labels.
 */
module Conditions {
  import Labels

  /** The keys of the conditions record, in the order the form lists them. */
  datatype ConditionKey = PCOS | Endometriosis | LowOvarianReserve | MaleFactorInfertility

  /** One flag per condition key; the flags are independent of each other. */
  datatype Conditions = Conditions(
    pcos: bool,
    endometriosis: bool,
    lowOvarianReserve: bool,
    maleFactorInfertility: bool)

  /** The keys in the order in which the record literal declares them. */
  const Keys: seq<ConditionKey> := [PCOS, Endometriosis, LowOvarianReserve, MaleFactorInfertility]

  /** The record the form starts with: no condition selected. */
  const Initial: Conditions := Conditions(false, false, false, false)

  /**
   The property name of a key in the conditions record (also the checkbox's
   `name`); every name starts with a capital letter.
   */
  function KeyName(k: ConditionKey): (name: string)
    ensures |name| > 0 && Labels.IsCapital(name[0])
  {
    match k
    case PCOS => "PCOS"
    case Endometriosis => "Endometriosis"
    case LowOvarianReserve => "LowOvarianReserve"
    case MaleFactorInfertility => "MaleFactorInfertility"
  }

  /** The flag stored under key `k`. */
  function Get(c: Conditions, k: ConditionKey): bool
  {
    match k
    case PCOS => c.pcos
    case Endometriosis => c.endometriosis
    case LowOvarianReserve => c.lowOvarianReserve
    case MaleFactorInfertility => c.maleFactorInfertility
  }

  /**
   The state update of a checkbox change: a copy of `prev` in which the
   flag named `name` is `checked`.
   */
  function Update(prev: Conditions, name: ConditionKey, checked: bool): (r: Conditions)
    ensures Get(r, name) == checked
    ensures forall k :: k != name ==> Get(r, k) == Get(prev, k)
  {
    match name
    case PCOS => prev.(pcos := checked)
    case Endometriosis => prev.(endometriosis := checked)
    case LowOvarianReserve => prev.(lowOvarianReserve := checked)
    case MaleFactorInfertility => prev.(maleFactorInfertility := checked)
  }

  /** Two records are equal exactly when they agree on every key. */
  lemma Extensionality(c: Conditions, d: Conditions)
    ensures (forall k :: Get(c, k) == Get(d, k)) <==> c == d
  {
    if forall k :: Get(c, k) == Get(d, k) {
      assert Get(c, PCOS) == Get(d, PCOS);
      assert Get(c, Endometriosis) == Get(d, Endometriosis);
      assert Get(c, LowOvarianReserve) == Get(d, LowOvarianReserve);
      assert Get(c, MaleFactorInfertility) == Get(d, MaleFactorInfertility);
    }
  }

  /** Writing back the value a key already holds leaves the record as it was. */
  lemma UpdateSameValue(prev: Conditions, name: ConditionKey)
    ensures Update(prev, name, Get(prev, name)) == prev
  {
  }

  /** A second change of the same checkbox overrides the first. */
  lemma UpdateTwice(prev: Conditions, name: ConditionKey, a: bool, b: bool)
    ensures Update(Update(prev, name, a), name, b) == Update(prev, name, b)
  {
  }

  /** Changes of two different checkboxes do not interfere. */
  lemma UpdateCommutes(prev: Conditions, n1: ConditionKey, v1: bool, n2: ConditionKey, v2: bool)
    requires n1 != n2
    ensures Update(Update(prev, n1, v1), n2, v2) == Update(Update(prev, n2, v2), n1, v1)
  {
  }

  /** Every key is listed exactly once, and the initial record has every flag off. */
  lemma KeysAndInitial()
    ensures |Keys| == 4
    ensures forall k :: k in Keys
    ensures forall i, j :: 0 <= i < j < |Keys| ==> Keys[i] != Keys[j]
    ensures forall k :: !Get(Initial, k)
  {
    forall k ensures k in Keys {
      match k
      case PCOS => assert Keys[0] == k;
      case Endometriosis => assert Keys[1] == k;
      case LowOvarianReserve => assert Keys[2] == k;
      case MaleFactorInfertility => assert Keys[3] == k;
    }
  }

  /** Distinct keys have distinct property names. */
  lemma KeyNamesDistinct(j: ConditionKey, k: ConditionKey)
    ensures KeyName(j) == KeyName(k) <==> j == k
  {
  }

  /**
   The text shown next to the checkbox of key `k`: it starts with a space,
   and removing the spaces before capitals gives back the property name.
   */
  function Label(k: ConditionKey): (text: string)
    ensures |text| > 0 && text[0] == ' '
    ensures Labels.DropSpaceBeforeCapitals(text) == KeyName(k)
  {
    Labels.RoundTrip(KeyName(k));
    Labels.SpaceBeforeCapitals(KeyName(k))
  }

  /**
   The labels the form renders: each capital letter of the key name gets a
   space before it, so the all-capitals key PCOS is spelled out letter by letter.
   */
  lemma LabelPCOS()
    ensures Label(PCOS) == " P C O S"
  {
    assert "PCOS" == ['P'] + "" + (['C'] + "" + (['O'] + "")) + ['S'] by { }
    assert [' ', 'P'] + "" + ([' ', 'C'] + "" + ([' ', 'O'] + "")) + [' ', 'S'] == " P C O S" by { }
    Labels.ThreeWords('P', "", 'C', "", 'O', "");
    Labels.Word('S', "");
    Labels.Concatenation(['P'] + "" + (['C'] + "" + (['O'] + "")), ['S']);
  }

  lemma LabelEndometriosis()
    ensures Label(Endometriosis) == " Endometriosis"
  {
    assert "Endometriosis" == ['E'] + "ndometriosis" by { }
    assert [' ', 'E'] + "ndometriosis" == " Endometriosis" by { }
    Labels.Word('E', "ndometriosis");
  }

  lemma LabelLowOvarianReserve()
    ensures Label(LowOvarianReserve) == " Low Ovarian Reserve"
  {
    assert "LowOvarianReserve" == ['L'] + "ow" + (['O'] + "varian" + (['R'] + "eserve")) by { }
    assert [' ', 'L'] + "ow" + ([' ', 'O'] + "varian" + ([' ', 'R'] + "eserve")) == " Low Ovarian Reserve" by { }
    Labels.ThreeWords('L', "ow", 'O', "varian", 'R', "eserve");
  }

  lemma LabelMaleFactorInfertility()
    ensures Label(MaleFactorInfertility) == " Male Factor Infertility"
  {
    assert "MaleFactorInfertility" == ['M'] + "ale" + (['F'] + "actor" + (['I'] + "nfertility")) by { }
    assert [' ', 'M'] + "ale" + ([' ', 'F'] + "actor" + ([' ', 'I'] + "nfertility")) == " Male Factor Infertility" by { }
    Labels.ThreeWords('M', "ale", 'F', "actor", 'I', "nfertility");
  }
}
