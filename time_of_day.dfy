/**
 * The greeting in the page header ("Good morning!", ...). The hour comes from
 * the local clock in the application; here it is a parameter.
 */
module TimeOfDay {

  /** The greeting word for a local hour, as the header computes it. */
  function GetTimeOfDay(hour: int): (r: string)
    ensures r in {"morning", "afternoon", "evening", "night"}
    ensures r == "morning" <==> 5 <= hour < 12
    ensures r == "afternoon" <==> 12 <= hour < 17
    ensures r == "evening" <==> 17 <= hour < 20
    ensures r == "night" <==> hour < 5 || 20 <= hour
  {
    if hour >= 5 && hour < 12 then "morning"
    else if hour >= 12 && hour < 17 then "afternoon"
    else if hour >= 17 && hour < 20 then "evening"
    else "night"
  }
}
