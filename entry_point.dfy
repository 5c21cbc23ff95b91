/**
  The dataset-name dispatch in test.py's `main`: a name picks exactly one
  test routine, any other name is an error.  (The script as it stands does
  not call `main`; its entry block runs `test_get_c_init` instead.)
 */
module EntryPoint {
  import opened Results

  /** The test routines `main` can start. */
  datatype TestRoutine = TestMnist | TestCifar | TestUcsdPed2 | TestShanghaiTech

  /** The command-line name under which each routine is reached. */
  function DatasetName(t: TestRoutine): string
  {
    match t
    case TestMnist => "mnist"
    case TestCifar => "cifar10"
    case TestUcsdPed2 => "ucsd-ped2"
    case TestShanghaiTech => "shanghaitech"
  }

  /** The routine `main` runs for the dataset argument, or the ValueError message it raises. */
  function SelectTest(dataset: string): (r: Result<TestRoutine, string>)
    ensures r.Ok? ==> DatasetName(r.value) == dataset
    ensures r.Err? <==> forall t :: DatasetName(t) != dataset
    ensures r.Err? ==> r.error == "Unknown dataset: " + dataset
  {
    if dataset == "mnist" then Ok(TestMnist)
    else if dataset == "cifar10" then Ok(TestCifar)
    else if dataset == "ucsd-ped2" then Ok(TestUcsdPed2)
    else if dataset == "shanghaitech" then Ok(TestShanghaiTech)
    else Err("Unknown dataset: " + dataset)
  }

  /** Every routine is reached by its own name and by no other. */
  lemma SelectByName(t: TestRoutine, dataset: string)
    ensures SelectTest(DatasetName(t)) == Ok(t)
    ensures SelectTest(dataset) == Ok(t) <==> dataset == DatasetName(t)
  {
  }
}
