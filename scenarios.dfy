/**
 The three sample packages of the original's demo driver, and the failures
 of the dispatcher, worked out exactly over the reals.
 */
module Scenarios {
  import opened Homework

  /** 720 strokes, 1 hour, 80 kg, 40 lengths of a 25 m pool. */
  lemma SwimmingSample()
    ensures ReadPackage("SWM", [720.0, 1.0, 80.0, 25.0, 40.0]) == Ok(Swimming(720.0, 1.0, 80.0, 25.0, 40.0))
    ensures ShowInfo(Swimming(720.0, 1.0, 80.0, 25.0, 40.0))
         == InfoMessage("Swimming", 1.0, 0.9936, 1.0, 336.0)
  {
  }

  /** 15000 steps, 1 hour, 75 kg. */
  lemma RunningSample()
    ensures ReadPackage("RUN", [15000.0, 1.0, 75.0]) == Ok(Running(15000.0, 1.0, 75.0))
    ensures ShowInfo(Running(15000.0, 1.0, 75.0))
         == InfoMessage("Running", 1.0, 9.75, 9.75, 797.805)
  {
  }

  /** 9000 steps, 1 hour, 75 kg, 180 cm. */
  lemma WalkingSample()
    ensures ReadPackage("WLK", [9000.0, 1.0, 75.0, 180.0]) == Ok(SportsWalking(9000.0, 1.0, 75.0, 180.0))
    ensures ShowInfo(SportsWalking(9000.0, 1.0, 75.0, 180.0))
         == InfoMessage("SportsWalking", 1.0, 5.85, 5.85, 349.251747525)
  {
  }

  /** An unknown code fails whatever the readings, before their number is looked at. */
  lemma UnknownCodeSample()
    ensures ReadPackage("XYZ", [1.0, 2.0, 3.0]) == Err(UnknownWorkoutType("XYZ"))
    ensures ReadPackage("run", [15000.0, 1.0, 75.0]) == Err(UnknownWorkoutType("run"))
  {
  }

  /** A known code with the wrong number of readings fails as the constructor call would. */
  lemma ArityMismatchSample()
    ensures ReadPackage("RUN", [15000.0, 1.0, 75.0, 180.0]) == Err(ArityMismatch("RUN", 3, 4))
    ensures ReadPackage("SWM", [720.0, 1.0, 80.0]) == Err(ArityMismatch("SWM", 5, 3))
  {
  }
}
