/** box_mesh really is the box: its signed volume and its extreme vertices (geometry/metrics.py). */
module BoxMesh {
  import opened Geometry

  /** The two triangles of the pair of faces orthogonal to one axis, opposite orientations included. */
  lemma FacesAcrossZ(b: Bounds)
    ensures
      var t := BoxTriangles(b);
      Triple(t[0]) + Triple(t[1]) + Triple(t[2]) + Triple(t[3]) == 2.0 * Volume(b)
  {
    var l, h := b.minimum, b.maximum;
    var t := BoxTriangles(b);
    assert t[0] == Triangle(Vec(l.x, l.y, l.z), Vec(h.x, h.y, l.z), Vec(h.x, l.y, l.z));
    assert t[1] == Triangle(Vec(l.x, l.y, l.z), Vec(l.x, h.y, l.z), Vec(h.x, h.y, l.z));
    assert t[2] == Triangle(Vec(l.x, l.y, h.z), Vec(h.x, l.y, h.z), Vec(h.x, h.y, h.z));
    assert t[3] == Triangle(Vec(l.x, l.y, h.z), Vec(h.x, h.y, h.z), Vec(l.x, h.y, h.z));
  }

  lemma FacesAcrossY(b: Bounds)
    ensures
      var t := BoxTriangles(b);
      Triple(t[4]) + Triple(t[5]) + Triple(t[6]) + Triple(t[7]) == 2.0 * Volume(b)
  {
    var l, h := b.minimum, b.maximum;
    var t := BoxTriangles(b);
    assert t[4] == Triangle(Vec(l.x, l.y, l.z), Vec(h.x, l.y, l.z), Vec(h.x, l.y, h.z));
    assert t[5] == Triangle(Vec(l.x, l.y, l.z), Vec(h.x, l.y, h.z), Vec(l.x, l.y, h.z));
    assert t[6] == Triangle(Vec(l.x, h.y, l.z), Vec(l.x, h.y, h.z), Vec(h.x, h.y, h.z));
    assert t[7] == Triangle(Vec(l.x, h.y, l.z), Vec(h.x, h.y, h.z), Vec(h.x, h.y, l.z));
  }

  lemma FacesAcrossX(b: Bounds)
    ensures
      var t := BoxTriangles(b);
      Triple(t[8]) + Triple(t[9]) + Triple(t[10]) + Triple(t[11]) == 2.0 * Volume(b)
  {
    var l, h := b.minimum, b.maximum;
    var t := BoxTriangles(b);
    assert t[8] == Triangle(Vec(l.x, l.y, l.z), Vec(l.x, l.y, h.z), Vec(l.x, h.y, h.z));
    assert t[9] == Triangle(Vec(l.x, l.y, l.z), Vec(l.x, h.y, h.z), Vec(l.x, h.y, l.z));
    assert t[10] == Triangle(Vec(h.x, l.y, l.z), Vec(h.x, h.y, l.z), Vec(h.x, h.y, h.z));
    assert t[11] == Triangle(Vec(h.x, l.y, l.z), Vec(h.x, h.y, h.z), Vec(h.x, l.y, h.z));
  }

  /** Peels one triangle off the signed sum of a prefix. */
  lemma TripleSumStep(ts: seq<Triangle>, n: nat)
    requires n < |ts|
    ensures TripleSum(ts[..n + 1]) == TripleSum(ts[..n]) + Triple(ts[n])
  {
    assert ts[..n + 1][..n] == ts[..n];
  }

  /** volume_um3 of a box mesh is the product of its sides, wherever the box lies. */
  lemma BoxMeshVolume(b: Bounds)
    requires WellFormed(b)
    ensures MeshVolume(BoxTriangles(b)) == Volume(b)
  {
    var t := BoxTriangles(b);
    assert TripleSum(t[..0]) == 0.0;
    TripleSumStep(t, 0); TripleSumStep(t, 1); TripleSumStep(t, 2); TripleSumStep(t, 3);
    TripleSumStep(t, 4); TripleSumStep(t, 5); TripleSumStep(t, 6); TripleSumStep(t, 7);
    TripleSumStep(t, 8); TripleSumStep(t, 9); TripleSumStep(t, 10); TripleSumStep(t, 11);
    assert t[..12] == t;
    FacesAcrossX(b);
    FacesAcrossY(b);
    FacesAcrossZ(b);
    VolumeNonNegative(b);
  }

  /** _translated_part: moving every vertex of a box mesh gives the mesh of the moved box. */
  lemma TranslatedMeshIsBoxMesh(b: Bounds, d: Vec)
    ensures BoxVertices(Translate(b, d)) ==
            seq(8, n requires 0 <= n < 8 => Add(BoxVertices(b)[n], d))
  {
  }

  /** mesh.bounds of a box mesh is the box again: every vertex lies in it and both corners are vertices. */
  lemma BoxMeshBounds(b: Bounds)
    requires WellFormed(b)
    ensures forall v <- BoxVertices(b) :: Has(b, v)
    ensures b.minimum in BoxVertices(b) && b.maximum in BoxVertices(b)
  {
    assert BoxVertices(b)[0] == b.minimum && BoxVertices(b)[6] == b.maximum;
  }
}
