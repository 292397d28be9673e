/** The BMI calculator's state and logic: the text of the five inputs, the
    active unit system and the shown result. `Number(...)` of an input is the
    parameter `number`, and the floating-point formula together with its
    `toFixed(1)` rounding is the parameter `bmiOf`; what is modelled is which
    inputs reach the formula, the imperial height conversion, and the
    classification of the rounded value over the reals. */
module BmiCalc {
  import opened Common

  datatype UnitSystem = Metric | Imperial

  /** The formula's inputs: centimetres and kilograms, or inches and pounds. */
  datatype Measurement =
    | MetricMeasurement(heightCm: real, weightKg: real)
    | ImperialMeasurement(heightIn: real, weightLb: real)

  datatype Category = Underweight | NormalWeight | Overweight | Obesity
  {
    /** The category's place along the BMI line. */
    function Rank(): nat
    {
      match this
      case Underweight => 0
      case NormalWeight => 1
      case Overweight => 2
      case Obesity => 3
    }

    function Label(): string
    {
      match this
      case Underweight => "Underweight"
      case NormalWeight => "Normal weight"
      case Overweight => "Overweight"
      case Obesity => "Obesity"
    }

    /** The text colour each category is shown in. */
    function Color(): string
    {
      match this
      case Underweight => "text-blue-500"
      case NormalWeight => "text-green-500"
      case Overweight => "text-yellow-500"
      case Obesity => "text-red-500"
    }
  }

  datatype BmiResult = BmiResult(bmi: real, category: string, color: string)

  /** The category of a rounded BMI; each band includes its lower bound. */
  function Categorize(bmi: real): (c: Category)
    ensures c == Underweight <==> bmi < 18.5
    ensures c == NormalWeight <==> 18.5 <= bmi < 25.0
    ensures c == Overweight <==> 25.0 <= bmi < 30.0
    ensures c == Obesity <==> 30.0 <= bmi
  {
    if bmi < 18.5 then Underweight
    else if bmi < 25.0 then NormalWeight
    else if bmi < 30.0 then Overweight
    else Obesity
  }

  /** A larger BMI never gets an earlier category. */
  lemma CategorizeMonotone(a: real, b: real)
    requires a <= b
    ensures Categorize(a).Rank() <= Categorize(b).Rank()
  {
  }

  /** The category is decided by the band the value falls in: the bands'
      lower bounds are the values where the category changes. */
  lemma CategoryBoundaries()
    ensures Categorize(18.4) == Underweight && Categorize(18.5) == NormalWeight
    ensures Categorize(24.9) == NormalWeight && Categorize(25.0) == Overweight
    ensures Categorize(29.9) == Overweight && Categorize(30.0) == Obesity
  {
  }

  function Classify(bmi: real): (r: BmiResult)
    ensures r.bmi == bmi
    ensures r.category == Categorize(bmi).Label() && r.color == Categorize(bmi).Color()
  {
    var c := Categorize(bmi);
    BmiResult(bmi, c.Label(), c.Color())
  }

  /** Imperial height in inches: twelve to the foot. */
  function HeightInInches(feet: real, inches: real): (total: real)
    ensures total - inches == 12.0 * feet
  {
    feet * 12.0 + inches
  }

  /** The inputs `onChange` handlers write to. */
  datatype Field = Height | Weight | Feet | Inches | Pounds

  class BmiCalculator {
    var system: UnitSystem
    var height: string
    var weight: string
    var feet: string
    var inches: string
    var pounds: string
    var bmiResult: Option<BmiResult>

    constructor ()
      ensures system == Metric && bmiResult == None
      ensures height == "" && weight == "" && feet == "" && inches == "" && pounds == ""
    {
      system := Metric;
      height, weight := "", "";
      feet, inches, pounds := "", "", "";
      bmiResult := None;
    }

    /** `calculateBmi`'s early returns do not fire: every input of the active system is filled. */
    predicate GuardPasses()
      reads this
    {
      if system == Metric then height != "" && weight != ""
      else feet != "" && inches != "" && pounds != ""
    }

    /** The Calculate button's `disabled` expression: the button is enabled
        exactly when `calculateBmi` would get past its guard. */
    predicate CalculateDisabled()
      reads this
      ensures CalculateDisabled() <==> !GuardPasses()
    {
      (system == Metric && (height == "" || weight == "")) ||
      (system == Imperial && (feet == "" || inches == "" || pounds == ""))
    }

    /** The Reset button's `disabled` expression: disabled exactly when every
        input of the active system is empty, and then Calculate is disabled too. */
    predicate ResetDisabled()
      reads this
      ensures ResetDisabled() <==>
        if system == Metric then height == "" && weight == ""
        else feet == "" && inches == "" && pounds == ""
      ensures ResetDisabled() ==> CalculateDisabled()
    {
      (system == Metric && height == "" && weight == "") ||
      (system == Imperial && feet == "" && inches == "" && pounds == "")
    }

    /** With the guard failing nothing changes; otherwise the rounded BMI of
        the active system's inputs is classified and shown. The 300 ms
        animation delay is not modelled. */
    method CalculateBmi(number: string -> real, bmiOf: Measurement -> real)
      modifies this
      ensures system == old(system) && height == old(height) && weight == old(weight)
      ensures feet == old(feet) && inches == old(inches) && pounds == old(pounds)
      ensures !old(GuardPasses()) ==> bmiResult == old(bmiResult)
      ensures old(GuardPasses()) && system == Metric ==>
        bmiResult == Some(Classify(bmiOf(MetricMeasurement(number(height), number(weight)))))
      ensures old(GuardPasses()) && system == Imperial ==>
        bmiResult == Some(Classify(bmiOf(ImperialMeasurement(HeightInInches(number(feet), number(inches)), number(pounds)))))
    {
      var bmiValue: real;
      if system == Metric {
        if height == "" || weight == "" {
          return;
        }
        bmiValue := bmiOf(MetricMeasurement(number(height), number(weight)));
      } else {
        if feet == "" || inches == "" || pounds == "" {
          return;
        }
        var heightInInches := HeightInInches(number(feet), number(inches));
        bmiValue := bmiOf(ImperialMeasurement(heightInInches, number(pounds)));
      }
      bmiResult := Some(Classify(bmiValue));
    }

    /** Clears the active system's inputs and the result; the other system's
        inputs keep their text. */
    method ResetCalculator()
      modifies this
      ensures system == old(system) && bmiResult == None
      ensures system == Metric ==>
        height == "" && weight == "" && feet == old(feet) && inches == old(inches) && pounds == old(pounds)
      ensures system == Imperial ==>
        feet == "" && inches == "" && pounds == "" && height == old(height) && weight == old(weight)
      ensures ResetDisabled() && !GuardPasses()
    {
      if system == Metric {
        height := "";
        weight := "";
      } else {
        feet := "";
        inches := "";
        pounds := "";
      }
      bmiResult := None;
    }

    /** Choosing a tab; the effect on `[system]` resets the newly active system
        whenever the choice changes it. */
    method SelectSystem(s: UnitSystem)
      modifies this
      ensures system == s
      ensures s == old(system) ==>
        height == old(height) && weight == old(weight) && feet == old(feet) &&
        inches == old(inches) && pounds == old(pounds) && bmiResult == old(bmiResult)
      ensures s != old(system) ==> bmiResult == None && ResetDisabled()
      ensures s != old(system) && s == Metric ==> feet == old(feet) && inches == old(inches) && pounds == old(pounds)
      ensures s != old(system) && s == Imperial ==> height == old(height) && weight == old(weight)
    {
      if s != system {
        system := s;
        ResetCalculator();
      }
    }

    /** An input's `onChange`: its text becomes the typed value. */
    method Enter(field: Field, value: string)
      modifies this
      ensures system == old(system) && bmiResult == old(bmiResult)
      ensures height == (if field == Height then value else old(height))
      ensures weight == (if field == Weight then value else old(weight))
      ensures feet == (if field == Feet then value else old(feet))
      ensures inches == (if field == Inches then value else old(inches))
      ensures pounds == (if field == Pounds then value else old(pounds))
    {
      match field
      case Height => height := value;
      case Weight => weight := value;
      case Feet => feet := value;
      case Inches => inches := value;
      case Pounds => pounds := value;
    }
  }
}
