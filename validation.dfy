/**
  The two parameter checks of the single-rate scripts. `check_if_landfill_is_full`
  is also the whole of lfg_calc_py/validation.py; there `landfill_capacity` is
  the module global of lfg_calc_py/landfill_script.py, here a parameter.
*/
module Validation {
  import opened Wrappers

  /** Accepts a waste total strictly between 0 and the landfill's capacity; ValueError otherwise. */
  function CheckIfLandfillIsFull(currentCapacity: real, landfillCapacity: real): (r: Result<real>)
    ensures r.Ok? <==> 0.0 < currentCapacity && currentCapacity < landfillCapacity
    ensures r.Ok? ==> r.value == currentCapacity
    ensures r.Err? ==> r.error == ValueError
  {
    if 0.0 < currentCapacity < landfillCapacity then Ok(currentCapacity) else Err(ValueError)
  }

  /** Accepts a decay constant strictly between 0 and 0.5; ValueError otherwise. */
  function CheckK(k: real): (r: Result<real>)
    ensures r.Ok? <==> 0.0 < k && k < 0.5
    ensures r.Ok? ==> r.value == k
    ensures r.Err? ==> r.error == ValueError
  {
    if 0.0 < k < 0.5 then Ok(k) else Err(ValueError)
  }
}
