/** ActionValidator (edge/validation.py): what may reach the robot. */
module ActionValidation {
  import opened CommonTypes
  import opened Reals
  import opened MotionPaths

  datatype ActionValidator = ActionValidator(dimension: int, chunkRows: int, maxAbsolute: real) {
    predicate Usable() {
      dimension > 0 && chunkRows > 0 && maxAbsolute > 0.0
    }
  }

  /** The largest absolute value of a row. */
  function Peak(row: Pose): (m: real)
    requires |row| > 0
    ensures forall limit :: Bounded(row, limit) <==> m <= limit
  {
    var sizes := seq(|row|, j requires 0 <= j < |row| => Abs(row[j]));
    var m := Max(sizes);
    assert forall j :: 0 <= j < |row| ==> Abs(row[j]) == sizes[j] <= m;
    assert forall limit :: Bounded(row, limit) ==> m <= limit by {
      forall limit | Bounded(row, limit) ensures m <= limit {
        var j :| 0 <= j < |sizes| && sizes[j] == m;
        assert -limit <= row[j] <= limit;
      }
    }
    m
  }

  function Peaks(rows: seq<Pose>): (r: seq<real>)
    requires forall i :: 0 <= i < |rows| ==> |rows[i]| > 0
    ensures |r| == |rows| && forall i :: 0 <= i < |r| ==> r[i] == Peak(rows[i])
  {
    seq(|rows|, i requires 0 <= i < |rows| => Peak(rows[i]))
  }

  function Project(rows: seq<Pose>, width: nat): (r: seq<Pose>)
    requires forall i :: 0 <= i < |rows| ==> width <= |rows[i]|
    ensures |r| == |rows| && SameWidth(r, width) && forall i :: 0 <= i < |r| ==> r[i] == rows[i][..width]
  {
    seq(|rows|, i requires 0 <= i < |rows| => rows[i][..width])
  }

  /** `numeric` says whether every value of the array is a finite number. */
  function Validate(v: ActionValidator, rows: Actions, numeric: bool): (r: Outcome<seq<Pose>>)
    ensures r.Returned? <==>
      && v.Usable() && numeric && |rows| == v.chunkRows
      && (SameWidth(rows, v.dimension) || SameWidth(rows, 2 * v.dimension))
      && forall i :: 0 <= i < |rows| ==> Bounded(rows[i][..v.dimension], v.maxAbsolute)
    ensures r.Raised? ==> !BudgetFault(r.code)
    ensures r.Returned? ==> |r.value| == v.chunkRows && SameWidth(r.value, v.dimension)
    ensures r.Returned? ==> forall i :: 0 <= i < |rows| ==>
        r.value[i] == rows[i][..v.dimension] && Bounded(r.value[i], v.maxAbsolute)
  {
    if !v.Usable() then Raised(PipelineFailed)
    else if |rows| != v.chunkRows then Raised(ActionInvalid)
    else if !SameWidth(rows, v.dimension) && !SameWidth(rows, 2 * v.dimension) then Raised(ActionInvalid)
    else if !numeric then Raised(ActionInvalid)
    else
      var projected := Project(rows, v.dimension);
      if Max(Peaks(projected)) > v.maxAbsolute then
        assert exists i :: 0 <= i < |rows| && !Bounded(rows[i][..v.dimension], v.maxAbsolute) by {
          var i :| 0 <= i < |rows| && Peaks(projected)[i] > v.maxAbsolute;
          assert !Bounded(rows[i][..v.dimension], v.maxAbsolute);
        }
        Raised(ActionInvalid)
      else
        assert forall i :: 0 <= i < |rows| ==> Peaks(projected)[i] <= v.maxAbsolute;
        Returned(projected)
  }
}
