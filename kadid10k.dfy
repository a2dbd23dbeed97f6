/** The KADID-10k label dataset: the label file is read once, in the constructor, into the kept image
    names and a column of normalised scores. */
module Kadid10kDataset {
  import opened Wrappers
  import opened LabelFile
  import opened LabelDataset

  class Kadid10k {
    const disPath: string
    const txtFileName: string
    var dataDict: DataDict

    /** As many image names as score rows, and every score row holds one score. */
    ghost predicate Valid()
      reads this
    {
      WellShaped(dataDict)
    }

    constructor FromData(disPath: string, txtFileName: string, dataDict: DataDict)
      requires WellShaped(dataDict)
      ensures Valid()
      ensures this.disPath == disPath && this.txtFileName == txtFileName && this.dataDict == dataDict
    {
      this.disPath := disPath;
      this.txtFileName := txtFileName;
      this.dataDict := dataDict;
    }

    /** `__init__`: `lines` are the lines of the file named `txtFileName`; the result is
        the dataset, or the error the constructor raises. */
    static method Open(disPath: string, txtFileName: string, lines: seq<string>,
                       listName: seq<string>, toFloat: string -> Option<real>)
      returns (r: Result<Kadid10k, LoadError>)
      ensures r.Ok? <==> Load(lines, listName, toFloat).Ok?
      ensures r.Ok? ==> && fresh(r.value) && r.value.Valid()
                        && r.value.dataDict == Load(lines, listName, toFloat).value
                        && r.value.disPath == disPath && r.value.txtFileName == txtFileName
      ensures r.Err? ==> r.error == Load(lines, listName, toFloat).error
    {
      var parsed := ReadLabels(lines, listName, toFloat);
      if parsed.Err? {
        return Err(ParseFailed(parsed.error));
      }
      var scoreData := MinMax.Normalization(parsed.value.scores);
      if scoreData.Err? {
        return Err(NormalizationFailed(scoreData.error));
      }
      assert DataDict(parsed.value.names, Column(scoreData.value)) == Load(lines, listName, toFloat).value;
      var dataset := new Kadid10k.FromData(disPath, txtFileName,
                                        DataDict(parsed.value.names, Column(scoreData.value)));
      r := Ok(dataset);
    }

    /** `__len__`: the number of images, which is also the number of score rows. */
    function Len(): (n: nat)
      reads this
      requires Valid()
      ensures n == |dataDict.scoreList|
    {
      |dataDict.dImgList|
    }
  }
}
