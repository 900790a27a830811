/**
 The shader program wrapper: compiling a vertex and a fragment stage and linking them,
 and the cache of uniform locations. The GL driver is not modelled: whether each stage
 compiles and links, the program name it creates and the locations it reports are
 parameters, and the calls the wrapper makes are recorded in order in `calls`.
 */
module Shaders {

  /** The values the `setUniform` overloads upload; their components are not modelled. */
  datatype UniformValue = Mat4 | Vec4 | Vec3 | Int(i: int) | Float

  /** The GL calls the wrapper makes, in the detail the model keeps. */
  datatype GlCall =
    | CreateShaders
    | CompileVertexShader
    | CompileFragmentShader
    | CreateProgram(program: nat)
    | LinkProgram(program: nat)
    | DeleteShaders
    | UseProgram(program: nat)
    | GetUniformLocation(program: nat, name: string)
    | Uniform(location: int, value: UniformValue)

  /** An unsigned 32-bit GL name or location. */
  type GLuint = u: nat | u < 0x1_0000_0000

  /** Conversion of a GLint to GLuint (two's complement, 32 bits). */
  function ToGLuint(x: int): (u: GLuint)
    ensures 0 <= x < 0x1_0000_0000 ==> u == x
  {
    x % 0x1_0000_0000
  }

  /** Conversion of a GLuint back to GLint. */
  function ToGLint(u: GLuint): (x: int)
    ensures -0x8000_0000 <= x < 0x8000_0000
  {
    if u < 0x8000_0000 then u else u - 0x1_0000_0000
  }

  /** A location survives its round trip through the GLuint cache; in particular -1, "no such uniform". */
  lemma LocationRoundTrip(location: int)
    requires -0x8000_0000 <= location < 0x8000_0000
    ensures ToGLint(ToGLuint(location)) == location
  {
  }

  // ---------------------------------------------------------------------------
  // The uniform cache as values

  /** One `ensureUniformId` on the cache: a hit returns the cached id, a miss caches the reported location. */
  function Lookup(cache: map<string, GLuint>, name: string, location: int): (r: (GLuint, map<string, GLuint>))
    ensures name in r.1 && r.1[name] == r.0
    ensures name in cache ==> r == (cache[name], cache)
    ensures name !in cache ==> r.0 == ToGLuint(location) && r.1.Keys == cache.Keys + {name}
    ensures forall n :: n in cache ==> n in r.1 && r.1[n] == cache[n]
  {
    if name in cache then (cache[name], cache)
    else var id := ToGLuint(location); (id, cache[name := id])
  }

  /** A request for a uniform: its name and the location the driver would report for it. */
  datatype Request = Request(name: string, location: int)

  /** Serving a run of requests in order: the ids returned and the cache at the end. */
  function LookupAll(cache: map<string, GLuint>, reqs: seq<Request>): (r: (seq<GLuint>, map<string, GLuint>))
    ensures |r.0| == |reqs|
    ensures forall n :: n in cache ==> n in r.1 && r.1[n] == cache[n]
    decreases |reqs|
  {
    if reqs == [] then ([], cache)
    else
      var (id, c) := Lookup(cache, reqs[0].name, reqs[0].location);
      var (ids, c') := LookupAll(c, reqs[1..]);
      ([id] + ids, c')
  }

  /** The names a run of requests queries the driver for: each uncached name, the first time it is asked for. */
  function Queried(cache: map<string, GLuint>, reqs: seq<Request>): (q: seq<string>)
    decreases |reqs|
  {
    if reqs == [] then []
    else if reqs[0].name in cache then Queried(cache, reqs[1..])
    else [reqs[0].name] + Queried(Lookup(cache, reqs[0].name, reqs[0].location).1, reqs[1..])
  }

  /** Every request is answered from the final cache: a name gets the same id every time it is asked for. */
  lemma {:induction false} LookupAllStable(cache: map<string, GLuint>, reqs: seq<Request>)
    ensures var (ids, c) := LookupAll(cache, reqs);
      forall i :: 0 <= i < |reqs| ==> reqs[i].name in c && ids[i] == c[reqs[i].name]
    decreases |reqs|
  {
    if reqs != [] {
      var (id, c1) := Lookup(cache, reqs[0].name, reqs[0].location);
      LookupAllStable(c1, reqs[1..]);
      var (ids, c) := LookupAll(cache, reqs);
      forall i | 0 <= i < |reqs|
        ensures reqs[i].name in c && ids[i] == c[reqs[i].name]
      {
        if i > 0 {
          assert reqs[i] == reqs[1..][i - 1];
        }
      }
    }
  }

  /**
   The driver is asked about each name at most once, and only about names that were
   not cached at the start; every name asked about ends up cached.
   */
  lemma {:induction false} QueriedOncePerName(cache: map<string, GLuint>, reqs: seq<Request>)
    ensures forall i, j :: 0 <= i < j < |Queried(cache, reqs)| ==> Queried(cache, reqs)[i] != Queried(cache, reqs)[j]
    ensures forall i :: 0 <= i < |Queried(cache, reqs)| ==>
      Queried(cache, reqs)[i] !in cache && Queried(cache, reqs)[i] in LookupAll(cache, reqs).1
    decreases |reqs|
  {
    if reqs != [] {
      var c1 := Lookup(cache, reqs[0].name, reqs[0].location).1;
      QueriedOncePerName(c1, reqs[1..]);
      var rest := Queried(c1, reqs[1..]);
      var final := LookupAll(c1, reqs[1..]).1;
      assert LookupAll(cache, reqs).1 == final;
      assert forall k :: 0 <= k < |rest| ==> rest[k] !in c1;
      assert forall k :: 0 <= k < |rest| ==> rest[k] in final;
      if reqs[0].name in cache {
        assert c1 == cache;
        assert Queried(cache, reqs) == rest;
      } else {
        var q := Queried(cache, reqs);
        assert q == [reqs[0].name] + rest;
        assert reqs[0].name in c1;
        forall i | 0 <= i < |q|
          ensures q[i] !in cache && q[i] in LookupAll(cache, reqs).1
        {
          if i > 0 {
            assert q[i] == rest[i - 1];
            assert rest[i - 1] !in c1;
          }
        }
      }
    }
  }

  // ---------------------------------------------------------------------------
  // Compiling

  /** The calls `compile` makes, given which stages succeed and the program name it gets. */
  function CompileCalls(vertexOk: bool, fragmentOk: bool, linkOk: bool, program: nat): seq<GlCall>
  {
    [CreateShaders, CompileVertexShader] +
    if !vertexOk then [] else
    [CompileFragmentShader] +
    if !fragmentOk then [] else
    [CreateProgram(program), LinkProgram(program)] +
    if !linkOk then [] else
    [DeleteShaders, UseProgram(program)]
  }

  /**
   The stages run in order and stop at the first failure: every run of `compile` makes a
   prefix of the calls of a successful run, and the shader objects are deleted and the
   program put in use only when all three stages succeed.
   */
  lemma CompileStopsAtFirstFailure(vertexOk: bool, fragmentOk: bool, linkOk: bool, program: nat)
    ensures var calls := CompileCalls(vertexOk, fragmentOk, linkOk, program);
      && calls <= CompileCalls(true, true, true, program)
      && (DeleteShaders in calls <==> vertexOk && fragmentOk && linkOk)
      && (UseProgram(program) in calls <==> vertexOk && fragmentOk && linkOk)
      && (CreateProgram(program) in calls <==> vertexOk && fragmentOk)
      && (CompileFragmentShader in calls <==> vertexOk)
  {
    var calls := CompileCalls(vertexOk, fragmentOk, linkOk, program);
    if !vertexOk {
      assert calls == [CreateShaders, CompileVertexShader];
    } else if !fragmentOk {
      assert calls == [CreateShaders, CompileVertexShader, CompileFragmentShader];
    } else if !linkOk {
      assert calls == [CreateShaders, CompileVertexShader, CompileFragmentShader,
                       CreateProgram(program), LinkProgram(program)];
    } else {
      assert calls == [CreateShaders, CompileVertexShader, CompileFragmentShader,
                       CreateProgram(program), LinkProgram(program), DeleteShaders, UseProgram(program)];
    }
  }

  class Shader {
    var shaderId: nat
    var uniforms: map<string, GLuint>
    /** The GL calls made so far, in order. */
    var calls: seq<GlCall>

    constructor ()
      ensures shaderId == 0 && uniforms == map[] && calls == []
    {
      shaderId := 0;
      uniforms := map[];
      calls := [];
    }

    /** `bind`: put the program in use. */
    method Bind()
      modifies this
      ensures calls == old(calls) + [UseProgram(shaderId)]
      ensures shaderId == old(shaderId) && uniforms == old(uniforms)
    {
      calls := calls + [UseProgram(shaderId)];
    }

    /**
     `compile`: compile the vertex stage, then the fragment stage, then create and link the
     program, returning false at the first failure. The program name replaces the old one as
     soon as it is created, even when linking then fails. The uniform cache is kept.
     */
    method Compile(vertexOk: bool, fragmentOk: bool, linkOk: bool, program: nat) returns (ok: bool)
      modifies this
      ensures ok == (vertexOk && fragmentOk && linkOk)
      ensures shaderId == if vertexOk && fragmentOk then program else old(shaderId)
      ensures uniforms == old(uniforms)
      ensures calls == old(calls) + CompileCalls(vertexOk, fragmentOk, linkOk, program)
    {
      calls := calls + [CreateShaders, CompileVertexShader];
      if !vertexOk {
        return false;
      }
      calls := calls + [CompileFragmentShader];
      if !fragmentOk {
        return false;
      }
      shaderId := program;
      calls := calls + [CreateProgram(program), LinkProgram(program)];
      if !linkOk {
        return false;
      }
      calls := calls + [DeleteShaders];
      Bind();
      return true;
    }

    /**
     `ensureUniformId`: put the program in use, answer from the cache, and on a miss ask the
     driver (which reports `location`) and cache the answer as a GLuint.
     */
    method EnsureUniformId(name: string, location: int) returns (id: GLuint)
      modifies this
      ensures (id, uniforms) == Lookup(old(uniforms), name, location)
      ensures calls == old(calls) + [UseProgram(shaderId)] +
        (if name in old(uniforms) then [] else [GetUniformLocation(shaderId, name)])
      ensures shaderId == old(shaderId)
    {
      Bind();
      if name in uniforms {
        return uniforms[name];
      }
      calls := calls + [GetUniformLocation(shaderId, name)];
      id := ToGLuint(location);
      uniforms := uniforms[name := id];
    }

    /** The `setUniform` overloads: look the location up, then upload the value there. */
    method SetUniform(name: string, location: int, value: UniformValue)
      modifies this
      ensures var (id, c) := Lookup(old(uniforms), name, location);
        && uniforms == c
        && calls == old(calls) + [UseProgram(shaderId)] +
           (if name in old(uniforms) then [] else [GetUniformLocation(shaderId, name)]) +
           [Uniform(ToGLint(id), value)]
      ensures shaderId == old(shaderId)
    {
      var id := EnsureUniformId(name, location);
      calls := calls + [Uniform(ToGLint(id), value)];
    }
  }

  /**
   After a recompile the cache still answers a name looked up before it: the second lookup
   returns the id reported for the old program, whatever the new program would report, and
   the new program is never asked.
   */
  method CacheSurvivesRecompile(shader: Shader, name: string, before: int, after: int,
                                vertexOk: bool, fragmentOk: bool, linkOk: bool, program: nat)
    returns (first: GLuint, second: GLuint)
    modifies shader
    ensures second == first
    ensures first == if name in old(shader.uniforms) then old(shader.uniforms)[name] else ToGLuint(before)
    ensures shader.calls == old(shader.calls) + [UseProgram(old(shader.shaderId))] +
      (if name in old(shader.uniforms) then [] else [GetUniformLocation(old(shader.shaderId), name)]) +
      CompileCalls(vertexOk, fragmentOk, linkOk, program) + [UseProgram(shader.shaderId)]
  {
    first := shader.EnsureUniformId(name, before);
    var compiled := shader.Compile(vertexOk, fragmentOk, linkOk, program);
    second := shader.EnsureUniformId(name, after);
  }
}
